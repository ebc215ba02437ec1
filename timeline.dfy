/**
 * The timeline recorder (simulation/timeline_recorder.py): a threshold
 * sampler that, each time the clock has reached the next threshold, records
 * one frame of per-station metrics and moves the threshold on by one
 * interval.
 */
module Timeline {

  /** The metrics the recorder reads from one station. */
  datatype StationMetrics = StationMetrics(
    stationId: string,
    queueLength: int,          // len(charged_store.get_queue)
    batteriesAvailable: int,   // charged_store.level
    chargersInUse: int,        // charging_count
    swapsCompleted: int,       // successful_swaps
    swapsLost: int)            // rejected_swaps

  datatype StationSnapshot = StationSnapshot(
    stationId: string,
    timestampMin: real,
    queueLength: int,
    batteriesAvailable: int,
    chargersInUse: int,
    swapsCompleted: int,
    swapsLost: int)

  datatype Frame = Frame(timestampMin: real, stations: seq<StationSnapshot>)

  /** Snapshot s is station m's metrics stamped with time t. */
  predicate SnapshotOf(s: StationSnapshot, m: StationMetrics, t: real) {
    && s.stationId == m.stationId && s.timestampMin == t
    && s.queueLength == m.queueLength && s.batteriesAvailable == m.batteriesAvailable
    && s.chargersInUse == m.chargersInUse && s.swapsCompleted == m.swapsCompleted
    && s.swapsLost == m.swapsLost
  }

  /** A frame at time t holding one snapshot per station, in station order. */
  predicate FrameOf(f: Frame, stations: seq<StationMetrics>, t: real) {
    && f.timestampMin == t
    && |f.stations| == |stations|
    && forall i :: 0 <= i < |stations| ==> SnapshotOf(f.stations[i], stations[i], t)
  }

  /** Every snapshot of a frame carries the frame's own time. */
  predicate FrameStamped(f: Frame) {
    forall i :: 0 <= i < |f.stations| ==> f.stations[i].timestampMin == f.timestampMin
  }

  /** A snapshot is determined by the station and the time: FrameOf has one solution. */
  lemma FrameOfUnique(f: Frame, g: Frame, stations: seq<StationMetrics>, t: real)
    requires FrameOf(f, stations, t) && FrameOf(g, stations, t)
    ensures f == g
  {
    assert f.stations == g.stations;
  }

  lemma FrameOfStamped(f: Frame, stations: seq<StationMetrics>, t: real)
    requires FrameOf(f, stations, t)
    ensures FrameStamped(f)
  {
  }

  /** _capture_snapshot: one snapshot per station, in order, each stamped with currentTime. */
  method CaptureSnapshot(currentTime: real, stations: seq<StationMetrics>) returns (f: Frame)
    ensures FrameOf(f, stations, currentTime)
  {
    var snapshots: seq<StationSnapshot> := [];
    for i := 0 to |stations|
      invariant |snapshots| == i
      invariant forall j :: 0 <= j < i ==> SnapshotOf(snapshots[j], stations[j], currentTime)
    {
      var m := stations[i];
      snapshots := snapshots + [StationSnapshot(m.stationId, currentTime, m.queueLength,
                                                m.batteriesAvailable, m.chargersInUse,
                                                m.swapsCompleted, m.swapsLost)];
    }
    f := Frame(currentTime, snapshots);
  }

  class TimelineRecorder {
    const intervalMin: real
    var nextSnapshotTime: real
    var frames: seq<Frame>

    /**
     * The threshold is one interval per recorded frame, frame i was taken
     * no earlier than threshold i, and every frame is consistently stamped.
     */
    ghost predicate Valid()
      reads this
    {
      && nextSnapshotTime == intervalMin * |frames| as real
      && (forall i :: 0 <= i < |frames| ==> frames[i].timestampMin >= intervalMin * i as real)
      && (forall i :: 0 <= i < |frames| ==> FrameStamped(frames[i]))
    }

    constructor (intervalMin: real)
      ensures this.intervalMin == intervalMin
      ensures nextSnapshotTime == 0.0 && frames == []
      ensures Valid()
    {
      this.intervalMin := intervalMin;
      nextSnapshotTime := 0.0;
      frames := [];
    }

    /**
     * tick: before the threshold nothing changes; at or after it, exactly
     * one frame is recorded and the threshold advances by exactly one
     * interval, however many intervals the clock has crossed.
     */
    method Tick(currentTime: real, stations: seq<StationMetrics>)
      requires Valid()
      modifies this
      ensures Valid()
      ensures currentTime < old(nextSnapshotTime) ==>
        nextSnapshotTime == old(nextSnapshotTime) && frames == old(frames)
      ensures currentTime >= old(nextSnapshotTime) ==>
        && nextSnapshotTime == old(nextSnapshotTime) + intervalMin
        && |frames| == |old(frames)| + 1
        && frames[..|old(frames)|] == old(frames)
        && FrameOf(frames[|old(frames)|], stations, currentTime)
    {
      if currentTime < nextSnapshotTime {
        return;
      }
      var frame := CaptureSnapshot(currentTime, stations);
      FrameOfStamped(frame, stations, currentTime);
      frames := frames + [frame];
      nextSnapshotTime := nextSnapshotTime + intervalMin;
    }

    /** to_serializable: the recorded frames, in recording order. */
    function ToSerializable(): (r: seq<Frame>)
      reads this
      ensures |r| == |frames|
      ensures forall i :: 0 <= i < |r| ==> r[i] == frames[i]
    {
      frames
    }

    /** get_frame_count: the number of frames, which fixes the next threshold. */
    function GetFrameCount(): (n: nat)
      reads this
      ensures n == |frames|
      ensures Valid() ==> nextSnapshotTime == intervalMin * n as real
    {
      |frames|
    }

    /** reset: back to the state of a fresh recorder. */
    method Reset()
      modifies this
      ensures nextSnapshotTime == 0.0 && frames == []
      ensures Valid()
    {
      nextSnapshotTime := 0.0;
      frames := [];
    }
  }
}
