/**
 * The rule-based part of the API service (api/services.py): optimisation
 * suggestions derived from a KPI summary, ordered by priority, and the file
 * name a created scenario is stored under.
 */
module Services {
  import opened Wrappers
  import opened Kpis

  // ------------------------------------------------------------ suggestions

  datatype SuggestionType = AddStation | AddChargers | AddBays | RemoveChargers

  datatype Priority = High | Medium | Low

  /** priority_map: high 0, medium 1, low 2. */
  function Rank(p: Priority): nat {
    match p
    case High => 0
    case Medium => 1
    case Low => 2
  }

  /**
   * One suggestion: its type, the station it concerns (None for a new
   * station), its priority and the amount in its action payload (0 for the
   * empty payload of add_station).
   */
  datatype Suggestion = Suggestion(kind: SuggestionType, stationId: Option<string>, priority: Priority, amount: nat)

  const LostSwapsThreshold: real := 5.0
  const CongestedUtilization: real := 0.7
  const BusyUtilization: real := 0.5
  const LongWaitThreshold: real := 5.0
  const IdleUtilization: real := 0.1

  /** The network-level rule: a new station when more than 5 % of the swaps are lost. */
  function CitySuggestions(city: CityKpis): (r: seq<Suggestion>)
    ensures |r| <= 1
    ensures |r| == 1 <==> city.lostSwapsPct > LostSwapsThreshold
    ensures |r| == 1 ==> r[0] == Suggestion(AddStation, None, High, 0)
  {
    if city.lostSwapsPct > LostSwapsThreshold then [Suggestion(AddStation, None, High, 0)] else []
  }

  predicate HasKind(r: seq<Suggestion>, kind: SuggestionType) {
    exists i :: 0 <= i < |r| && r[i].kind == kind
  }

  /** The station-level rules, in the order the loop body applies them. */
  function StationSuggestions(s: StationKpis): seq<Suggestion> {
    var id := Some(s.stationId);
    var chargers :=
      if s.chargerUtilization > CongestedUtilization then [Suggestion(AddChargers, id, High, 2)]
      else if s.chargerUtilization > BusyUtilization then [Suggestion(AddChargers, id, Medium, 1)]
      else [];
    var bays := if s.avgWaitTime > LongWaitThreshold then [Suggestion(AddBays, id, High, 1)] else [];
    var remove :=
      if s.chargerUtilization < IdleUtilization && s.totalArrivals > 0 then [Suggestion(RemoveChargers, id, Low, 1)]
      else [];
    chargers + bays + remove
  }

  /**
   * What the rules promise for one station: more chargers exactly when
   * utilisation is above 0.5 (two, with high priority, above 0.7; one, with
   * medium priority, otherwise), one more bay exactly when the wait is above
   * 5 minutes, one charger fewer exactly when utilisation is below 0.1 and
   * the station saw arrivals; every suggestion names the station.
   */
  lemma StationSuggestionsSpec(s: StationKpis)
    ensures var r := StationSuggestions(s);
      && (forall i :: 0 <= i < |r| ==> r[i].stationId == Some(s.stationId) && r[i].kind != AddStation)
      && (HasKind(r, AddChargers) <==> s.chargerUtilization > BusyUtilization)
      && (forall i :: 0 <= i < |r| && r[i].kind == AddChargers ==>
           if s.chargerUtilization > CongestedUtilization then r[i].priority == High && r[i].amount == 2
           else r[i].priority == Medium && r[i].amount == 1)
      && (HasKind(r, AddBays) <==> s.avgWaitTime > LongWaitThreshold)
      && (forall i :: 0 <= i < |r| && r[i].kind == AddBays ==> r[i].priority == High && r[i].amount == 1)
      && (HasKind(r, RemoveChargers) <==> s.chargerUtilization < IdleUtilization && s.totalArrivals > 0)
      && (forall i :: 0 <= i < |r| && r[i].kind == RemoveChargers ==> r[i].priority == Low && r[i].amount == 1)
      && |r| <= 2
  {
    var r := StationSuggestions(s);
    var nc := if s.chargerUtilization > BusyUtilization then 1 else 0;
    var nb := if s.avgWaitTime > LongWaitThreshold then 1 else 0;
    if s.chargerUtilization > BusyUtilization {
      assert r[0].kind == AddChargers;
    }
    if s.avgWaitTime > LongWaitThreshold {
      assert r[nc].kind == AddBays;
    }
    if s.chargerUtilization < IdleUtilization && s.totalArrivals > 0 {
      assert r[nc + nb].kind == RemoveChargers;
    }
  }

  /** A station is never told both to add and to remove chargers. */
  lemma StationSuggestionsConsistent(s: StationKpis)
    ensures !(HasKind(StationSuggestions(s), AddChargers) && HasKind(StationSuggestions(s), RemoveChargers))
  {
    StationSuggestionsSpec(s);
  }

  /** The suggestions of the stations, in station order. */
  function AllStationSuggestions(stations: seq<StationKpis>): seq<Suggestion>
    decreases |stations|
  {
    if |stations| == 0 then []
    else AllStationSuggestions(stations[..|stations| - 1]) + StationSuggestions(stations[|stations| - 1])
  }

  lemma AllStationSuggestionsStep(stations: seq<StationKpis>, i: nat)
    requires i < |stations|
    ensures AllStationSuggestions(stations[..i + 1]) == AllStationSuggestions(stations[..i]) + StationSuggestions(stations[i])
  {
    assert stations[..i + 1][..i] == stations[..i];
  }

  /** The suggestions in the order they are generated, before sorting. */
  function Generated(city: CityKpis, stations: seq<StationKpis>): seq<Suggestion> {
    CitySuggestions(city) + AllStationSuggestions(stations)
  }

  lemma {:induction false} AllStationSuggestionsBounded(stations: seq<StationKpis>)
    ensures |AllStationSuggestions(stations)| <= 2 * |stations|
    ensures forall i :: 0 <= i < |AllStationSuggestions(stations)| ==>
      AllStationSuggestions(stations)[i].kind != AddStation
    decreases |stations|
  {
    if |stations| > 0 {
      AllStationSuggestionsBounded(stations[..|stations| - 1]);
      StationSuggestionsSpec(stations[|stations| - 1]);
    }
  }

  // ---------------------------------------------------------------- sorting

  /** The suggestions of priority p, in their original order. */
  function WithPriority(xs: seq<Suggestion>, p: Priority): (r: seq<Suggestion>)
    ensures |r| <= |xs|
    ensures forall i :: 0 <= i < |r| ==> r[i].priority == p
    decreases |xs|
  {
    if |xs| == 0 then []
    else
      var rest := WithPriority(xs[..|xs| - 1], p);
      if xs[|xs| - 1].priority == p then rest + [xs[|xs| - 1]] else rest
  }

  /** suggestions.sort(key=priority): Python's sort is stable, so each priority keeps its order. */
  function SortByPriority(xs: seq<Suggestion>): seq<Suggestion> {
    WithPriority(xs, High) + WithPriority(xs, Medium) + WithPriority(xs, Low)
  }

  predicate SortedByPriority(xs: seq<Suggestion>) {
    forall i, j :: 0 <= i < j < |xs| ==> Rank(xs[i].priority) <= Rank(xs[j].priority)
  }

  lemma {:induction false} WithPriorityAppend(a: seq<Suggestion>, b: seq<Suggestion>, p: Priority)
    ensures WithPriority(a + b, p) == WithPriority(a, p) + WithPriority(b, p)
    decreases |b|
  {
    if |b| == 0 {
      assert a + b == a;
    } else {
      var b' := b[..|b| - 1];
      assert (a + b)[..|a + b| - 1] == a + b';
      WithPriorityAppend(a, b', p);
    }
  }

  /** Filtering a sequence of priority-p suggestions by p keeps it; by another priority empties it. */
  lemma {:induction false} WithPriorityUniform(xs: seq<Suggestion>, p: Priority, q: Priority)
    requires forall i :: 0 <= i < |xs| ==> xs[i].priority == p
    ensures WithPriority(xs, q) == if p == q then xs else []
    decreases |xs|
  {
    if |xs| > 0 {
      WithPriorityUniform(xs[..|xs| - 1], p, q);
      assert xs[..|xs| - 1] + [xs[|xs| - 1]] == xs;
    }
  }

  /** The sorted list runs through the priorities high, medium, low. */
  lemma SortIsSorted(xs: seq<Suggestion>)
    ensures SortedByPriority(SortByPriority(xs))
  {
  }

  /** The sort keeps, for every priority, exactly the suggestions of that priority in their order. */
  lemma SortIsStable(xs: seq<Suggestion>, q: Priority)
    ensures WithPriority(SortByPriority(xs), q) == WithPriority(xs, q)
  {
    var h := WithPriority(xs, High);
    var m := WithPriority(xs, Medium);
    var l := WithPriority(xs, Low);
    WithPriorityAppend(h + m, l, q);
    WithPriorityAppend(h, m, q);
    WithPriorityUniform(h, High, q);
    WithPriorityUniform(m, Medium, q);
    WithPriorityUniform(l, Low, q);
    if q == High {
      assert h + [] + [] == h;
    } else if q == Medium {
      assert [] + m + [] == m;
    } else {
      assert [] + [] + l == l;
    }
  }

  /** Splitting a sequence by priority loses and adds nothing. */
  lemma {:induction false} PartitionByPriority(xs: seq<Suggestion>)
    ensures multiset(xs)
         == multiset(WithPriority(xs, High)) + multiset(WithPriority(xs, Medium)) + multiset(WithPriority(xs, Low))
    decreases |xs|
  {
    if |xs| > 0 {
      var init := xs[..|xs| - 1];
      PartitionByPriority(init);
      assert init + [xs[|xs| - 1]] == xs;
    }
  }

  /** The sort is a permutation. */
  lemma SortIsPermutation(xs: seq<Suggestion>)
    ensures multiset(SortByPriority(xs)) == multiset(xs)
  {
    PartitionByPriority(xs);
  }

  /** In a sorted sequence, nothing before the last element ranks below it. */
  lemma SortedSplit(ys: seq<Suggestion>, p: Priority)
    requires |ys| > 0 && SortedByPriority(ys)
    ensures SortedByPriority(ys[..|ys| - 1])
    ensures Rank(p) > Rank(ys[|ys| - 1].priority) ==> WithPriority(ys[..|ys| - 1], p) == []
  {
    var init := ys[..|ys| - 1];
    if Rank(p) > Rank(ys[|ys| - 1].priority) {
      assert forall i :: 0 <= i < |init| ==> Rank(init[i].priority) <= Rank(ys[|ys| - 1].priority);
      NoneOfPriority(init, p);
    }
  }

  lemma WithPriorityLast(init: seq<Suggestion>, y: Suggestion, p: Priority)
    ensures WithPriority(init + [y], p) == if y.priority == p then WithPriority(init, p) + [y] else WithPriority(init, p)
  {
    assert (init + [y])[..|init|] == init;
  }

  /** A sorted sequence is its high, then medium, then low suggestions. */
  lemma {:induction false} SortedIsOwnSort(ys: seq<Suggestion>)
    requires SortedByPriority(ys)
    ensures SortByPriority(ys) == ys
    decreases |ys|
  {
    if |ys| > 0 {
      var init := ys[..|ys| - 1];
      var y := ys[|ys| - 1];
      assert ys == init + [y];
      SortedSplit(ys, Medium);
      SortedSplit(ys, Low);
      SortedIsOwnSort(init);
      var h := WithPriority(init, High);
      var m := WithPriority(init, Medium);
      var l := WithPriority(init, Low);
      WithPriorityLast(init, y, High);
      WithPriorityLast(init, y, Medium);
      WithPriorityLast(init, y, Low);
      if y.priority == High {
        assert init == h + [] + [];
      } else if y.priority == Medium {
        assert init == h + m + [];
      } else {
        assert (h + m + l) + [y] == h + m + (l + [y]);
      }
    }
  }

  lemma {:induction false} NoneOfPriority(xs: seq<Suggestion>, p: Priority)
    requires forall i :: 0 <= i < |xs| ==> xs[i].priority != p
    ensures WithPriority(xs, p) == []
    decreases |xs|
  {
    if |xs| > 0 {
      NoneOfPriority(xs[..|xs| - 1], p);
    }
  }

  /**
   * The sort is the only stable one: a sorted sequence holding, priority by
   * priority, the same suggestions in the same order is the sort's result.
   */
  lemma StableSortUnique(xs: seq<Suggestion>, ys: seq<Suggestion>)
    requires SortedByPriority(ys)
    requires forall p :: WithPriority(ys, p) == WithPriority(xs, p)
    ensures ys == SortByPriority(xs)
  {
    SortedIsOwnSort(ys);
    assert WithPriority(ys, High) == WithPriority(xs, High);
    assert WithPriority(ys, Medium) == WithPriority(xs, Medium);
    assert WithPriority(ys, Low) == WithPriority(xs, Low);
  }

  /** The body of the station loop: the rules that fire for station s, appended in order. */
  method ApplyStationRules(s: StationKpis) returns (added: seq<Suggestion>)
    ensures added == StationSuggestions(s)
  {
    var id := Some(s.stationId);
    added := [];
    if s.chargerUtilization > CongestedUtilization {
      added := added + [Suggestion(AddChargers, id, High, 2)];
    } else if s.chargerUtilization > BusyUtilization {
      added := added + [Suggestion(AddChargers, id, Medium, 1)];
    }
    if s.avgWaitTime > LongWaitThreshold {
      added := added + [Suggestion(AddBays, id, High, 1)];
    }
    if s.chargerUtilization < IdleUtilization && s.totalArrivals > 0 {
      added := added + [Suggestion(RemoveChargers, id, Low, 1)];
    }
  }

  /**
   * generate_optimization_suggestions: the rules applied to the city and
   * then to each station in order, followed by the stable priority sort.
   */
  method GenerateSuggestions(city: CityKpis, stations: seq<StationKpis>) returns (suggestions: seq<Suggestion>)
    ensures suggestions == SortByPriority(Generated(city, stations))
  {
    suggestions := ApplyRules(city, stations);
    suggestions := SortByPriority(suggestions);
  }

  /** The rule pass of generate_optimization_suggestions, before the sort. */
  method ApplyRules(city: CityKpis, stations: seq<StationKpis>) returns (suggestions: seq<Suggestion>)
    ensures suggestions == Generated(city, stations)
  {
    suggestions := [];
    if city.lostSwapsPct > LostSwapsThreshold {
      suggestions := suggestions + [Suggestion(AddStation, None, High, 0)];
    }
    for i := 0 to |stations|
      invariant suggestions == CitySuggestions(city) + AllStationSuggestions(stations[..i])
    {
      var added := ApplyStationRules(stations[i]);
      AllStationSuggestionsStep(stations, i);
      suggestions := suggestions + added;
    }
    assert stations[..|stations|] == stations;
  }

  /**
   * What the service returns: at most one network suggestion plus two per
   * station; a new station is suggested exactly when more than 5 % of the
   * swaps were lost, and then it comes first.
   */
  lemma SuggestionsOverview(city: CityKpis, stations: seq<StationKpis>)
    ensures |SortByPriority(Generated(city, stations))| <= 1 + 2 * |stations|
    ensures Suggestion(AddStation, None, High, 0) in SortByPriority(Generated(city, stations))
        <==> city.lostSwapsPct > LostSwapsThreshold
    ensures city.lostSwapsPct > LostSwapsThreshold ==>
      SortByPriority(Generated(city, stations))[0] == Suggestion(AddStation, None, High, 0)
  {
    var g := Generated(city, stations);
    var add := Suggestion(AddStation, None, High, 0);
    AllStationSuggestionsBounded(stations);
    SortIsPermutation(g);
    assert |SortByPriority(g)| == |multiset(SortByPriority(g))| == |multiset(g)| == |g|;
    assert add in SortByPriority(g) <==> add in multiset(SortByPriority(g));
    assert add in g <==> add in multiset(g);
    if city.lostSwapsPct > LostSwapsThreshold {
      assert g[0] == add;
      assert [add] + AllStationSuggestions(stations) == g;
      WithPriorityAppend([add], AllStationSuggestions(stations), High);
      WithPriorityUniform([add], High, High);
    } else {
      assert g == AllStationSuggestions(stations);
    }
  }

  // --------------------------------------------------------------- filenames

  /** ASCII lower-casing: 'A'..'Z' become 'a'..'z', every other character stays. */
  function LowerAscii(c: char): (d: char)
    ensures 'A' <= c <= 'Z' ==> d as int == c as int + 32
    ensures !('A' <= c <= 'Z') ==> d == c
    ensures !('A' <= d <= 'Z')
  {
    if 'A' <= c <= 'Z' then (c as int + 32) as char else c
  }

  /** name.lower().replace(" ", "_"), character by character. */
  function SafeName(name: string): (r: string)
    ensures |r| == |name|
    ensures forall i :: 0 <= i < |r| ==> r[i] == if name[i] == ' ' then '_' else LowerAscii(name[i])
    decreases |name|
  {
    if |name| == 0 then []
    else SafeName(name[..|name| - 1]) + [if name[|name| - 1] == ' ' then '_' else LowerAscii(name[|name| - 1])]
  }

  /** A safe name has no spaces and no upper-case ASCII letters. */
  lemma SafeNameIsSafe(name: string)
    ensures forall i :: 0 <= i < |SafeName(name)| ==> SafeName(name)[i] != ' ' && !('A' <= SafeName(name)[i] <= 'Z')
  {
  }

  /** Making a safe name safe again changes nothing. */
  lemma SafeNameIdempotent(name: string)
    ensures SafeName(SafeName(name)) == SafeName(name)
  {
    SafeNameIsSafe(name);
  }

  /** The file a scenario is saved under: f"scenario_{safe_name}.yaml". */
  function ScenarioFilename(name: string): (f: string)
    ensures |f| == |name| + 14
    ensures f[..9] == "scenario_" && f[|f| - 5..] == ".yaml"
    ensures f[9..|f| - 5] == SafeName(name)
  {
    "scenario_" + SafeName(name) + ".yaml"
  }

  /** A scenario renamed to its own safe name is saved under the same file. */
  lemma FilenameOfSafeName(name: string)
    ensures ScenarioFilename(SafeName(name)) == ScenarioFilename(name)
  {
    SafeNameIdempotent(name);
  }
}
