/**
 * Looking up the flights of one gate and choosing the next one
 * (ui_gate_search.py): keep the Master-codeshare records of the gate, tag each
 * with its direction, read each record's effective time, keep those at or
 * after the cutoff, and sort them by instant. The records are shared
 * dictionaries that the lookup writes into, so they are objects here.
 */
module GateSearch {
  import opened Wrappers
  import opened Text
  import opened Calendar
  import opened Api
  import opened Sorting
  import opened Subsequence

  // ---------------------------------------------------------------- direction labels

  /** `_flight_type_label`. */
  function FlightTypeLabel(flightType: string): string {
    if flightType == "A" then "🛬 도착" else "🛫 출발"
  }

  /** `_flight_type_color`. */
  function FlightTypeColor(flightType: string): string {
    if flightType == "A" then "#1e3a5f" else "#5f1e3a"
  }

  /** `_airport_label`: an arrival shows where it came from, a departure where it goes. */
  function AirportLabel(flightType: string): string {
    if flightType == "A" then "출발지" else "도착지"
  }

  /** `_estimated_time_label`. */
  function EstimatedTimeLabel(flightType: string): string {
    if flightType == "A" then "예상 도착(ETA)" else "예상 출발(ETD)"
  }

  /** `_scheduled_time_label`. */
  function ScheduledTimeLabel(flightType: string): string {
    if flightType == "A" then "계획 도착(STA)" else "계획 출발(STD)"
  }

  /** `_card_background`. */
  function CardBackground(flightType: string): string {
    if flightType == "A" then "linear-gradient(135deg, #1e3a5f 0%, #2d5986 100%)"
    else "linear-gradient(135deg, #5f1e3a 0%, #862d59 100%)"
  }

  /**
   * Only the tag `A` selects the arrival variant; every other tag, not just `D`,
   * selects the departure variant, and the two variants always differ.
   */
  lemma LabelsDistinguishOnlyArrivals(flightType: string)
    ensures flightType != "A" ==>
              && FlightTypeLabel(flightType) == FlightTypeLabel("D")
              && FlightTypeColor(flightType) == FlightTypeColor("D")
              && AirportLabel(flightType) == AirportLabel("D")
              && EstimatedTimeLabel(flightType) == EstimatedTimeLabel("D")
              && ScheduledTimeLabel(flightType) == ScheduledTimeLabel("D")
              && CardBackground(flightType) == CardBackground("D")
    ensures FlightTypeLabel("A") != FlightTypeLabel("D") && FlightTypeColor("A") != FlightTypeColor("D")
    ensures AirportLabel("A") != AirportLabel("D") && EstimatedTimeLabel("A") != EstimatedTimeLabel("D")
    ensures ScheduledTimeLabel("A") != ScheduledTimeLabel("D") && CardBackground("A") != CardBackground("D")
  {
    assert FlightTypeColor("A")[1] != FlightTypeColor("D")[1];
    assert CardBackground("A")[25] != CardBackground("D")[25];
  }

  // ---------------------------------------------------------------- records as shared objects

  /** The key the direction tag is written under. */
  const TagKey: string := "_flight_type"

  /** One flight's dictionary: its string entries (the tag among them) and its `_parsed_time`. */
  class FlightItem {
    var entries: Record
    var parsedTime: Option<int>

    constructor (entries: Record)
      ensures this.entries == entries && parsedTime == None
    {
      this.entries := entries;
      parsedTime := None;
    }
  }

  /** The entries of each flight, in order. */
  function Entries(fs: seq<FlightItem>): (r: seq<Record>)
    reads fs
    ensures |r| == |fs| && forall i :: 0 <= i < |fs| ==> r[i] == fs[i].entries
  {
    seq(|fs|, i requires 0 <= i < |fs| reads fs => fs[i].entries)
  }

  /** Two records that differ at most in their direction tag. */
  ghost predicate AgreeExceptTag(r1: Record, r2: Record) {
    forall k :: k != TagKey ==> (k in r1 <==> k in r2) && (k in r1 ==> r1[k] == r2[k])
  }

  // ---------------------------------------------------------------- _filter_by_gate

  /** A Master-codeshare record whose gate, trimmed and upper-cased, is the query. */
  predicate GateMatches(r: Record, query: string) {
    && GetOrDefault(r, "codeshare", "") == "Master" && "codeshare" in r
    && Upper(Strip(GetOr(r, "gate_number", ""))) == query
  }

  /** Which records are at the queried gate. */
  function GateMarks(recs: seq<Record>, query: string): (m: seq<bool>)
    ensures |m| == |recs|
  {
    if recs == [] then [] else GateMarks(recs[..|recs| - 1], query) + [GateMatches(recs[|recs| - 1], query)]
  }

  lemma {:induction false} GateMarksAt(recs: seq<Record>, query: string, k: nat)
    requires k < |recs|
    ensures GateMarks(recs, query)[k] == GateMatches(recs[k], query)
    decreases |recs|
  {
    if k < |recs| - 1 {
      GateMarksAt(recs[..|recs| - 1], query, k);
    }
  }

  /** The `xs[i]` whose record `recs[i]` is at the queried gate, in order. */
  function ByGate<T>(xs: seq<T>, recs: seq<Record>, query: string): seq<T>
    requires |xs| == |recs|
  {
    Pick(xs, Positions(GateMarks(recs, query)))
  }

  /**
   * The selection is the subsequence of exactly the elements whose record is a
   * Master codeshare at the queried gate: each kept element is at the gate, the
   * kept positions ascend, and no element at the gate is left out.
   */
  lemma ByGateSpec<T>(xs: seq<T>, recs: seq<Record>, query: string)
    requires |xs| == |recs|
    ensures var idx := Positions(GateMarks(recs, query));
            && |ByGate(xs, recs, query)| == |idx| <= |xs|
            && (forall j :: 0 <= j < |idx| ==> ByGate(xs, recs, query)[j] == xs[idx[j]] && GateMatches(recs[idx[j]], query))
            && (forall j, k :: 0 <= j < k < |idx| ==> idx[j] < idx[k])
            && (forall i :: 0 <= i < |xs| && GateMatches(recs[i], query) ==> i in idx)
  {
    var marks := GateMarks(recs, query);
    PositionsSpec(marks);
    PositionsBound(marks);
    forall i | 0 <= i < |xs|
      ensures marks[i] == GateMatches(recs[i], query)
    {
      GateMarksAt(recs, query, i);
    }
  }

  lemma AgreeAt(r1: Record, r2: Record, k: string)
    requires AgreeExceptTag(r1, r2) && k != TagKey
    ensures GetOrDefault(r1, k, "") == GetOrDefault(r2, k, "") && GetOr(r1, k, "") == GetOr(r2, k, "")
    ensures k in r1 <==> k in r2
  {
  }

  lemma MatchesIgnoreTag(r1: Record, r2: Record, query: string)
    requires AgreeExceptTag(r1, r2)
    ensures GateMatches(r1, query) == GateMatches(r2, query)
  {
    AgreeAt(r1, r2, "codeshare");
    AgreeAt(r1, r2, "gate_number");
  }

  /** The selection reads nothing but the codeshare and gate entries, so the tag cannot change it. */
  lemma ByGateIgnoresTag<T>(xs: seq<T>, r1: seq<Record>, r2: seq<Record>, query: string)
    requires |xs| == |r1| == |r2|
    requires forall i :: 0 <= i < |xs| ==> AgreeExceptTag(r1[i], r2[i])
    ensures ByGate(xs, r1, query) == ByGate(xs, r2, query)
  {
    forall i | 0 <= i < |xs|
      ensures GateMarks(r1, query)[i] == GateMarks(r2, query)[i]
    {
      GateMarksAt(r1, query, i);
      GateMarksAt(r2, query, i);
      MatchesIgnoreTag(r1[i], r2[i], query);
    }
    assert GateMarks(r1, query) == GateMarks(r2, query);
  }

  lemma TagAgrees(r: Record, tag: string)
    ensures AgreeExceptTag(r, r[TagKey := tag]) && AgreeExceptTag(r[TagKey := tag], r)
  {
  }

  /** A record after `_filter_by_gate` has looked at it: tagged if it is at the gate. */
  function Tagged(r: Record, query: string, flightType: string): Record {
    if GateMatches(r, query) then r[TagKey := flightType] else r
  }

  /** Looking at a record a second time changes nothing more. */
  lemma TaggedTwice(r: Record, query: string, flightType: string)
    ensures Tagged(Tagged(r, query, flightType), query, flightType) == Tagged(r, query, flightType)
  {
    TagAgrees(r, flightType);
    MatchesIgnoreTag(r, Tagged(r, query, flightType), query);
    if GateMatches(r, query) {
      assert r[TagKey := flightType][TagKey := flightType] == r[TagKey := flightType];
    }
  }

  /** The filter changes a record in its tag at most. */
  lemma TaggedAgrees(r: Record, query: string, flightType: string)
    ensures AgreeExceptTag(Tagged(r, query, flightType), r)
  {
    TagAgrees(r, flightType);
  }

  /** A second filter with another tag overwrites the first tag and nothing else. */
  lemma RetaggedOverrides(r: Record, query: string, first: string, second: string)
    ensures Tagged(Tagged(r, query, first), query, second) == Tagged(r, query, second)
  {
    TagAgrees(r, first);
    MatchesIgnoreTag(r, Tagged(r, query, first), query);
    if GateMatches(r, query) {
      assert r[TagKey := first][TagKey := second] == r[TagKey := second];
    }
  }

  /**
   * `_filter_by_gate(flights, gate_query, flight_type)`: the flights at the gate,
   * in order; each of them gets its tag written into its own dictionary.
   */
  method FilterByGate(flights: seq<FlightItem>, query: string, flightType: string) returns (result: seq<FlightItem>)
    modifies flights`entries
    ensures result == ByGate(flights, old(Entries(flights)), query)
    ensures forall i :: 0 <= i < |flights| ==> flights[i].entries == Tagged(old(flights[i].entries), query, flightType)
    ensures forall i :: 0 <= i < |flights| ==> flights[i].parsedTime == old(flights[i].parsedTime)
  {
    ghost var before := Entries(flights);
    ghost var marks := GateMarks(before, query);
    // the flights looked at so far; a flight may occur in the list more than once
    ghost var seen: set<FlightItem> := {};
    assert forall j, k :: 0 <= j < |flights| && 0 <= k < |flights| && flights[j] == flights[k] ==> before[j] == before[k];
    result := [];
    var i := 0;
    while i < |flights|
      invariant 0 <= i <= |flights|
      invariant forall k :: 0 <= k < i ==> flights[k] in seen
      invariant result == Pick(flights, Positions(marks[..i]))
      invariant Entries(flights) == TaggedSoFar(before, flights, seen, query, flightType)
    {
      var item := flights[i];
      result := TagFlight(flights, i, before, marks, seen, result, query, flightType);
      forall k | 0 <= k <= i
        ensures flights[k] in seen + {item}
      {
      }
      seen := seen + {item};
      i := i + 1;
    }
    assert marks[..i] == marks;
  }

  /**
   * One flight's visit in `_filter_by_gate`: when it is at the gate, its tag is
   * written and it joins the result. Every other occurrence of the same flight
   * object sees the write too.
   */
  method TagFlight(flights: seq<FlightItem>, i: nat, ghost before: seq<Record>, ghost marks: seq<bool>, ghost seen: set<FlightItem>,
                   result: seq<FlightItem>, query: string, flightType: string) returns (extended: seq<FlightItem>)
    requires i < |flights| == |before| && marks == GateMarks(before, query)
    requires forall j, k :: 0 <= j < |flights| && 0 <= k < |flights| && flights[j] == flights[k] ==> before[j] == before[k]
    requires result == Pick(flights, Positions(marks[..i]))
    requires Entries(flights) == TaggedSoFar(before, flights, seen, query, flightType)
    modifies {flights[i]}`entries
    ensures extended == Pick(flights, Positions(marks[..i + 1]))
    ensures Entries(flights) == TaggedSoFar(before, flights, seen + {flights[i]}, query, flightType)
    ensures flights[i].parsedTime == old(flights[i].parsedTime)
  {
    TagOne(before, flights, seen, i, query, flightType);
    GateMarksAt(before, query, i);
    PickStep(flights, marks, i);
    var item := flights[i];
    extended := result;
    if GateMatches(item.entries, query) {
      item.entries := item.entries[TagKey := flightType];
      extended := extended + [item];
    }
    assert Entries(flights) == TaggedSoFar(before, flights, seen + {item}, query, flightType);
  }

  /** The entries after `_filter_by_gate` has looked at the flights in `seen`. */
  ghost function TaggedSoFar(before: seq<Record>, fs: seq<FlightItem>, seen: set<FlightItem>, query: string, flightType: string): (r: seq<Record>)
    requires |before| == |fs|
    ensures |r| == |fs|
    ensures forall k :: 0 <= k < |fs| ==> r[k] == (if fs[k] in seen then Tagged(before[k], query, flightType) else before[k])
  {
    seq(|fs|, k requires 0 <= k < |fs| => if fs[k] in seen then Tagged(before[k], query, flightType) else before[k])
  }

  /**
   * Looking at `fs[i]` once more: it and every other occurrence of the same
   * flight get the tagged entries, and no other flight changes.
   */
  lemma TagOne(before: seq<Record>, fs: seq<FlightItem>, seen: set<FlightItem>, i: nat, query: string, flightType: string)
    requires |before| == |fs| && i < |fs|
    requires forall j, k :: 0 <= j < |fs| && 0 <= k < |fs| && fs[j] == fs[k] ==> before[j] == before[k]
    ensures var now := TaggedSoFar(before, fs, seen, query, flightType)[i];
            && GateMatches(now, query) == GateMatches(before[i], query)
            && (if GateMatches(now, query) then now[TagKey := flightType] else now) == Tagged(before[i], query, flightType)
    ensures forall k :: 0 <= k < |fs| ==>
              TaggedSoFar(before, fs, seen + {fs[i]}, query, flightType)[k]
              == if fs[k] == fs[i] then Tagged(before[i], query, flightType) else TaggedSoFar(before, fs, seen, query, flightType)[k]
  {
    TaggedStep(before[i], TaggedSoFar(before, fs, seen, query, flightType)[i], query, flightType, fs[i] in seen);
  }

  /** One visit of `_filter_by_gate` to a record leaves it tagged, whether or not it was visited before. */
  lemma TaggedStep(r: Record, current: Record, query: string, flightType: string, visited: bool)
    requires current == (if visited then Tagged(r, query, flightType) else r)
    ensures GateMatches(current, query) == GateMatches(r, query)
    ensures (if GateMatches(current, query) then current[TagKey := flightType] else current) == Tagged(r, query, flightType)
  {
    TaggedTwice(r, query, flightType);
    TagAgrees(r, flightType);
    MatchesIgnoreTag(r, Tagged(r, query, flightType), query);
  }

  // ---------------------------------------------------------------- _filter_future_flights

  /**
   * The time a record is judged by: the actual time when there is one and it is
   * not the placeholder, else the scheduled time.
   */
  function EffectiveTime(r: Record): string {
    var actual := GetOr(r, "actual_datetime", "");
    if actual != "" && actual != "-" then actual else GetOr(r, "scheduled_datetime", "")
  }

  /** The instant of a record's effective time, or `None` when it is missing or does not parse. */
  function EffectiveInstant(r: Record): Option<int> {
    var ts := EffectiveTime(r);
    if ts == "" || ts == "-" then None
    else match ParseStamp(Strip(ts))
      case Some(t) => Some(Minutes(t))
      case None => None
  }

  /** A well-formed actual time wins over the scheduled time. */
  lemma ActualTimeWins(r: Record, t: Stamp)
    requires ValidStamp(t) && "actual_datetime" in r && r["actual_datetime"] == FormatStamp(t)
    ensures EffectiveInstant(r) == Some(Minutes(t))
  {
    var s := FormatStamp(t);
    FormattedStampParses(t);
    StampIsTrimmed(s);
    StripUntouched(s);
  }

  /** With no usable actual time the scheduled time is used. */
  lemma ScheduledTimeFallback(r: Record, t: Stamp)
    requires ValidStamp(t) && "scheduled_datetime" in r && r["scheduled_datetime"] == FormatStamp(t)
    requires GetOr(r, "actual_datetime", "") in {"", "-"}
    ensures EffectiveInstant(r) == Some(Minutes(t))
  {
    var s := FormatStamp(t);
    FormattedStampParses(t);
    StampIsTrimmed(s);
    StripUntouched(s);
  }

  /** An actual time that is present but malformed drops the record, whatever the scheduled time says. */
  lemma MalformedActualDrops(r: Record)
    requires var actual := GetOr(r, "actual_datetime", "");
             actual != "" && actual != "-" && ParseStamp(Strip(actual)).None?
    ensures EffectiveInstant(r) == None
  {
  }


  /** The effective instant of each record, in order. */
  function Instants(recs: seq<Record>): (r: seq<Option<int>>)
    ensures |r| == |recs|
  {
    if recs == [] then [] else Instants(recs[..|recs| - 1]) + [EffectiveInstant(recs[|recs| - 1])]
  }

  lemma {:induction false} InstantsAt(recs: seq<Record>, k: nat)
    requires k < |recs|
    ensures Instants(recs)[k] == EffectiveInstant(recs[k])
    decreases |recs|
  {
    if k < |recs| - 1 {
      InstantsAt(recs[..|recs| - 1], k);
    }
  }

  /** Which instants are present and at or after the cutoff. */
  function FutureMarks(instants: seq<Option<int>>, cutoff: int): (m: seq<bool>)
    ensures |m| == |instants|
    ensures forall i :: 0 <= i < |instants| ==> m[i] == (instants[i].Some? && instants[i].value >= cutoff)
  {
    seq(|instants|, i requires 0 <= i < |instants| => instants[i].Some? && instants[i].value >= cutoff)
  }

  /** The `xs[i]` whose record `recs[i]` is at or after the cutoff, in order. */
  function Upcoming<T>(xs: seq<T>, recs: seq<Record>, cutoff: int): seq<T>
    requires |xs| == |recs|
  {
    Pick(xs, Positions(FutureMarks(Instants(recs), cutoff)))
  }

  /** The upcoming elements, each with the instant it is sorted by. */
  function UpcomingKeyed<T>(xs: seq<T>, recs: seq<Record>, cutoff: int): (r: seq<(int, T)>)
    requires |xs| == |recs|
    ensures Sorting.Items(r) == Upcoming(xs, recs, cutoff)
    ensures forall j :: 0 <= j < |r| ==> r[j].0 >= cutoff
  {
    var instants := Instants(recs);
    var idx := Positions(FutureMarks(instants, cutoff));
    seq(|idx|, j requires 0 <= j < |idx| => (instants[idx[j]].value, xs[idx[j]]))
  }

  /**
   * The future list is the subsequence of exactly the elements whose effective
   * time parses to an instant at or after the cutoff, each keyed by that instant.
   */
  lemma UpcomingSpec<T>(xs: seq<T>, recs: seq<Record>, cutoff: int)
    requires |xs| == |recs|
    ensures var idx := Positions(FutureMarks(Instants(recs), cutoff));
            var keyed := UpcomingKeyed(xs, recs, cutoff);
            && |keyed| == |idx| <= |xs|
            && (forall j :: 0 <= j < |idx| ==>
                  && EffectiveInstant(recs[idx[j]]) == Some(keyed[j].0)
                  && keyed[j].1 == xs[idx[j]]
                  && keyed[j].0 >= cutoff)
            && (forall j, k :: 0 <= j < k < |idx| ==> idx[j] < idx[k])
            && (forall i :: 0 <= i < |xs| && EffectiveInstant(recs[i]).Some? && EffectiveInstant(recs[i]).value >= cutoff
                  ==> i in idx)
  {
    var marks := FutureMarks(Instants(recs), cutoff);
    var idx := Positions(marks);
    PositionsSpec(marks);
    PositionsBound(marks);
    forall j | 0 <= j < |idx|
      ensures EffectiveInstant(recs[idx[j]]) == Some(UpcomingKeyed(xs, recs, cutoff)[j].0)
    {
      InstantsAt(recs, idx[j]);
    }
    forall i | 0 <= i < |xs| && EffectiveInstant(recs[i]).Some? && EffectiveInstant(recs[i]).value >= cutoff
      ensures i in idx
    {
      InstantsAt(recs, i);
    }
  }

  lemma InstantIgnoresTag(r1: Record, r2: Record)
    requires AgreeExceptTag(r1, r2)
    ensures EffectiveInstant(r1) == EffectiveInstant(r2)
    ensures GetOr(r1, "scheduled_datetime", "") == GetOr(r2, "scheduled_datetime", "")
  {
    assert "actual_datetime" != TagKey && "scheduled_datetime" != TagKey;
  }

  lemma UpcomingIgnoresTag<T>(xs: seq<T>, r1: seq<Record>, r2: seq<Record>, cutoff: int)
    requires |xs| == |r1| == |r2|
    requires forall i :: 0 <= i < |xs| ==> AgreeExceptTag(r1[i], r2[i])
    ensures UpcomingKeyed(xs, r1, cutoff) == UpcomingKeyed(xs, r2, cutoff)
  {
    forall i | 0 <= i < |xs|
      ensures Instants(r1)[i] == Instants(r2)[i]
    {
      InstantsAt(r1, i);
      InstantsAt(r2, i);
      InstantIgnoresTag(r1[i], r2[i]);
    }
    assert Instants(r1) == Instants(r2);
  }

  /**
   * The `_parsed_time` values after `_filter_future_flights`: a flight whose
   * effective time parses carries that instant, any other keeps what it had.
   */
  function Settled(instants: seq<Option<int>>, previous: seq<Option<int>>): (r: seq<Option<int>>)
    requires |instants| == |previous|
    ensures |r| == |instants|
    ensures forall k :: 0 <= k < |instants| ==> r[k] == if instants[k].Some? then instants[k] else previous[k]
  {
    seq(|instants|, k requires 0 <= k < |instants| => if instants[k].Some? then instants[k] else previous[k])
  }

  /**
   * `_filter_future_flights(gate_flights, cutoff)`: the flights whose effective
   * time is at or after the cutoff, in order. Every flight whose time parses
   * gets `_parsed_time` written, the past ones included.
   */
  method FilterFutureFlights(gateFlights: seq<FlightItem>, cutoff: int) returns (future: seq<FlightItem>)
    modifies gateFlights`parsedTime
    ensures future == Upcoming(gateFlights, old(Entries(gateFlights)), cutoff)
    ensures forall i :: 0 <= i < |gateFlights| ==> gateFlights[i].entries == old(gateFlights[i].entries)
    ensures Times(gateFlights) == Settled(Instants(old(Entries(gateFlights))), old(Times(gateFlights)))
  {
    ghost var before, times := Entries(gateFlights), Times(gateFlights);
    ghost var instants := Instants(before);
    ghost var marks := FutureMarks(instants, cutoff);
    // the flights looked at so far; a flight may occur in the list more than once
    ghost var seen: set<FlightItem> := {};
    SameObjectSameInstant(before, gateFlights);
    future := [];
    var i := 0;
    while i < |gateFlights|
      invariant 0 <= i <= |gateFlights|
      invariant forall k :: 0 <= k < i ==> gateFlights[k] in seen
      invariant future == Pick(gateFlights, Positions(marks[..i]))
      invariant forall k :: 0 <= k < |gateFlights| ==>
                  gateFlights[k].parsedTime == if gateFlights[k] in seen && instants[k].Some? then instants[k] else times[k]
    {
      var item := gateFlights[i];
      var instant := FlightInstant(item, before, i);
      future := SettleFlight(gateFlights, i, instant, cutoff, instants, marks, times, seen, future);
      forall k | 0 <= k <= i
        ensures gateFlights[k] in seen + {item}
      {
      }
      seen := seen + {item};
      i := i + 1;
    }
    assert marks[..i] == marks;
    assert Times(gateFlights) == Settled(instants, times);
  }

  /** Each flight's `_parsed_time`, in order. */
  function Times(fs: seq<FlightItem>): (r: seq<Option<int>>)
    reads fs
    ensures |r| == |fs| && forall i :: 0 <= i < |fs| ==> r[i] == fs[i].parsedTime
  {
    seq(|fs|, i requires 0 <= i < |fs| reads fs => fs[i].parsedTime)
  }

  /**
   * The rest of one visit in `_filter_future_flights`, once the instant is known:
   * a parsed instant becomes the flight's `_parsed_time`, and the flight joins
   * the result when it is at or after the cutoff. Every other occurrence of the
   * same flight object sees the write too.
   */
  method SettleFlight(flights: seq<FlightItem>, i: nat, instant: Option<int>, cutoff: int,
                      ghost instants: seq<Option<int>>, ghost marks: seq<bool>, ghost times: seq<Option<int>>, ghost seen: set<FlightItem>,
                      future: seq<FlightItem>) returns (extended: seq<FlightItem>)
    requires i < |flights| == |instants| == |times| && instant == instants[i] && marks == FutureMarks(instants, cutoff)
    requires forall j, k :: 0 <= j < |flights| && 0 <= k < |flights| && flights[j] == flights[k] ==> instants[j] == instants[k]
    requires future == Pick(flights, Positions(marks[..i]))
    requires forall k :: 0 <= k < |flights| ==>
               flights[k].parsedTime == if flights[k] in seen && instants[k].Some? then instants[k] else times[k]
    modifies {flights[i]}`parsedTime
    ensures extended == Pick(flights, Positions(marks[..i + 1]))
    ensures forall k :: 0 <= k < |flights| ==> flights[k].entries == old(flights[k].entries)
    ensures forall k :: 0 <= k < |flights| ==>
              flights[k].parsedTime == if flights[k] in seen + {flights[i]} && instants[k].Some? then instants[k] else times[k]
  {
    PickStep(flights, marks, i);
    extended := future;
    if instant.Some? {
      flights[i].parsedTime := instant;
      if instant.value >= cutoff {
        extended := extended + [flights[i]];
      }
    }
  }

  /** The instant of a flight's effective time, as `Instants` lists it. */
  method FlightInstant(item: FlightItem, ghost recs: seq<Record>, ghost i: nat) returns (instant: Option<int>)
    requires i < |recs| && item.entries == recs[i]
    ensures instant == Instants(recs)[i]
  {
    InstantsAt(recs, i);
    instant := EffectiveInstant(item.entries);
  }

  /** The same flight object, met twice in a list, has one set of entries and so one instant. */
  lemma SameObjectSameInstant(recs: seq<Record>, fs: seq<FlightItem>)
    requires |recs| == |fs|
    requires forall j, k :: 0 <= j < |fs| && 0 <= k < |fs| && fs[j] == fs[k] ==> recs[j] == recs[k]
    ensures forall j, k :: 0 <= j < |fs| && 0 <= k < |fs| && fs[j] == fs[k] ==> Instants(recs)[j] == Instants(recs)[k]
  {
    forall j, k | 0 <= j < |fs| && 0 <= k < |fs| && fs[j] == fs[k]
      ensures Instants(recs)[j] == Instants(recs)[k]
    {
      InstantsAt(recs, j);
      InstantsAt(recs, k);
    }
  }

  // ---------------------------------------------------------------- selection (render)

  /** What the gate view shows. */
  datatype GateView<T> =
    | NoFlightsAtGate
    | NoFutureFlights(all: seq<T>)
    | NextFlight(next: T, upcoming: seq<T>)

  /** Each element keyed by its scheduled time, a missing one as `""`. */
  function ScheduleKeyed<T>(xs: seq<T>, recs: seq<Record>): (r: seq<(string, T)>)
    requires |xs| == |recs|
    ensures |r| == |xs| && forall i :: 0 <= i < |xs| ==> r[i] == (GetOr(recs[i], "scheduled_datetime", ""), xs[i])
  {
    seq(|xs|, i requires 0 <= i < |xs| => (GetOr(recs[i], "scheduled_datetime", ""), xs[i]))
  }

  /**
   * The choice `render` makes for a gate's flights: nothing at the gate; every
   * flight of the gate by scheduled time when none is at or after the cutoff;
   * otherwise the future flights by instant, the first of them as the next.
   */
  function SelectView<T>(xs: seq<T>, recs: seq<Record>, cutoff: int): GateView<T>
    requires |xs| == |recs|
  {
    if xs == [] then NoFlightsAtGate
    else
      var fut := UpcomingKeyed(xs, recs, cutoff);
      if fut == [] then NoFutureFlights(Sorting.Items(SortByKey(ScheduleKeyed(xs, recs), Text.Less)))
      else
        SortPermutes(fut, IntLt);
        var sorted := SortByKey(fut, IntLt);
        NextFlight(sorted[0].1, Sorting.Items(sorted[1..]))
  }

  /**
   * With a future flight, the next one has the smallest instant, the upcoming
   * ones follow in ascending order, together they are the future list
   * rearranged, and flights with equal instants keep the gate list's order
   * (arrivals before departures).
   */
  lemma NextFlightIsEarliest<T>(xs: seq<T>, recs: seq<Record>, cutoff: int)
    requires |xs| == |recs| && UpcomingKeyed(xs, recs, cutoff) != []
    ensures var fut := UpcomingKeyed(xs, recs, cutoff);
            var sorted := SortByKey(fut, IntLt);
            && |sorted| == |fut|
            && SelectView(xs, recs, cutoff) == NextFlight(sorted[0].1, Sorting.Items(sorted[1..]))
            && multiset(sorted) == multiset(fut)
            && (forall i, j :: 0 <= i < j < |sorted| ==> sorted[i].0 <= sorted[j].0)
            && (forall p :: p in fut ==> cutoff <= sorted[0].0 <= p.0)
            && (forall m :: WithKey(sorted, m) == WithKey(fut, m))
  {
    var fut := UpcomingKeyed(xs, recs, cutoff);
    var sorted := SortByKey(fut, IntLt);
    SortPermutes(fut, IntLt);
    IntLtIsStrictTotal();
    SortSorted(fut, IntLt);
    forall m
      ensures WithKey(sorted, m) == WithKey(fut, m)
    {
      SortStable(fut, IntLt, m);
    }
    assert xs != [];
    assert sorted[0] in multiset(fut);
    forall p | p in fut
      ensures cutoff <= sorted[0].0 <= p.0
    {
      assert p in multiset(sorted);
    }
  }

  /**
   * With flights at the gate but none at or after the cutoff, all of them are
   * shown, ordered by their scheduled-time strings, equal ones in gate-list order.
   */
  lemma NoFutureShowsAll<T>(xs: seq<T>, recs: seq<Record>, cutoff: int)
    requires |xs| == |recs| && xs != [] && UpcomingKeyed(xs, recs, cutoff) == []
    ensures var sorted := SortByKey(ScheduleKeyed(xs, recs), Text.Less);
            && SelectView(xs, recs, cutoff) == NoFutureFlights(Sorting.Items(sorted))
            && multiset(sorted) == multiset(ScheduleKeyed(xs, recs))
            && Sorted(sorted, Text.Less)
            && (forall k :: WithKey(sorted, k) == WithKey(ScheduleKeyed(xs, recs), k))
  {
    var keyed := ScheduleKeyed(xs, recs);
    SortPermutes(keyed, Text.Less);
    StringLessIsStrictTotal();
    SortSorted(keyed, Text.Less);
    forall k
      ensures WithKey(SortByKey(keyed, Text.Less), k) == WithKey(keyed, k)
    {
      SortStable(keyed, Text.Less, k);
    }
  }

  /** The view depends on nothing but the time entries, so the direction tags cannot change it. */
  lemma SelectViewIgnoresTag<T>(xs: seq<T>, r1: seq<Record>, r2: seq<Record>, cutoff: int)
    requires |xs| == |r1| == |r2|
    requires forall i :: 0 <= i < |xs| ==> AgreeExceptTag(r1[i], r2[i])
    ensures SelectView(xs, r1, cutoff) == SelectView(xs, r2, cutoff)
  {
    UpcomingIgnoresTag(xs, r1, r2, cutoff);
    forall i | 0 <= i < |xs|
      ensures ScheduleKeyed(xs, r1)[i] == ScheduleKeyed(xs, r2)[i]
    {
      InstantIgnoresTag(r1[i], r2[i]);
    }
    assert ScheduleKeyed(xs, r1) == ScheduleKeyed(xs, r2);
  }

  /**
   * After `_filter_future_flights`, each upcoming flight's `_parsed_time` is
   * the instant it is sorted by.
   */
  lemma SettledKeysUpcoming<T>(xs: seq<T>, recs: seq<Record>, previous: seq<Option<int>>, cutoff: int)
    requires |xs| == |recs| == |previous|
    ensures var idx := Positions(FutureMarks(Instants(recs), cutoff));
            var times := Settled(Instants(recs), previous);
            var keyed := UpcomingKeyed(xs, recs, cutoff);
            && |keyed| == |idx|
            && forall j :: 0 <= j < |idx| ==> keyed[j] == (times[idx[j]].GetOr(0), xs[idx[j]])
  {
  }

  /** The future list keyed by the `_parsed_time` each of its flights now carries. */
  function ParsedKeyed(fs: seq<FlightItem>): (r: seq<(int, FlightItem)>)
    reads fs
    ensures |r| == |fs| && forall j :: 0 <= j < |fs| ==> r[j] == (fs[j].parsedTime.GetOr(0), fs[j])
  {
    seq(|fs|, j requires 0 <= j < |fs| reads fs => (fs[j].parsedTime.GetOr(0), fs[j]))
  }

  /**
   * Lines 171-190 of `render`: with the gate's flights, filter for the future
   * ones (writing `_parsed_time`) and sort, by instant or, failing any future
   * flight, the whole gate list by scheduled time.
   */
  method SelectNextFlight(gateFlights: seq<FlightItem>, cutoff: int) returns (view: GateView<FlightItem>)
    modifies gateFlights`parsedTime
    ensures view == SelectView(gateFlights, old(Entries(gateFlights)), cutoff)
    ensures forall i :: 0 <= i < |gateFlights| ==> gateFlights[i].entries == old(gateFlights[i].entries)
    ensures Times(gateFlights) == Settled(Instants(old(Entries(gateFlights))), old(Times(gateFlights)))
  {
    if |gateFlights| == 0 {
      view := NoFlightsAtGate;
    } else {
      ghost var before, times := Entries(gateFlights), Times(gateFlights);
      var future := FilterFutureFlights(gateFlights, cutoff);
      ghost var fut := UpcomingKeyed(gateFlights, before, cutoff);
      SettledKeysUpcoming(gateFlights, before, times, cutoff);
      if |future| == 0 {
        assert fut == [];
        assert Entries(gateFlights) == before;
        var sorted := SortByKey(ScheduleKeyed(gateFlights, Entries(gateFlights)), Text.Less);
        view := NoFutureFlights(Sorting.Items(sorted));
      } else {
        var keyed := ParsedKeyed(future);
        assert keyed == fut;
        SortPermutes(keyed, IntLt);
        var sorted := SortByKey(keyed, IntLt);
        view := NextFlight(sorted[0].1, Sorting.Items(sorted[1..]));
      }
    }
  }

  /**
   * The tags after both filters of a search: a departure carries its old
   * record, tagged `D` when it is at the gate; an arrival carries its old
   * record tagged `A`, or `D` when the same object is also a departure, since
   * the departures are filtered second.
   */
  ghost predicate TaggedBySearch(arrivals: seq<FlightItem>, departures: seq<FlightItem>,
                                 a0: seq<Record>, d0: seq<Record>, query: string)
    reads arrivals`entries, departures`entries
  {
    && |arrivals| == |a0| && |departures| == |d0|
    && (forall j :: 0 <= j < |departures| ==> departures[j].entries == Tagged(d0[j], query, "D"))
    && (forall i :: 0 <= i < |arrivals| ==>
          arrivals[i].entries == Tagged(a0[i], query, if arrivals[i] in departures then "D" else "A"))
  }

  /**
   * Lines 166-169 of `render`: the arrivals at the gate, filtered with tag `A`,
   * followed by the departures at the gate, filtered with tag `D`. Every flight
   * keeps its record apart from the tag, whichever list it is in (one object
   * may be in both), so each gate flight's record still agrees with the record
   * it was selected by.
   */
  method FilterBoth(arrivals: seq<FlightItem>, departures: seq<FlightItem>, query: string)
    returns (gateFlights: seq<FlightItem>)
    modifies arrivals`entries, departures`entries
    ensures gateFlights == ByGate(arrivals, old(Entries(arrivals)), query) + ByGate(departures, old(Entries(departures)), query)
    ensures TaggedBySearch(arrivals, departures, old(Entries(arrivals)), old(Entries(departures)), query)
    ensures forall i :: 0 <= i < |arrivals| ==> AgreeExceptTag(arrivals[i].entries, old(Entries(arrivals))[i])
    ensures forall j :: 0 <= j < |departures| ==> AgreeExceptTag(departures[j].entries, old(Entries(departures))[j])
    ensures var recs := ByGate(old(Entries(arrivals)), old(Entries(arrivals)), query)
                        + ByGate(old(Entries(departures)), old(Entries(departures)), query);
            |gateFlights| == |recs| && forall k :: 0 <= k < |gateFlights| ==> AgreeExceptTag(gateFlights[k].entries, recs[k])
    ensures forall i :: 0 <= i < |arrivals| ==> arrivals[i].parsedTime == old(arrivals[i].parsedTime)
    ensures forall j :: 0 <= j < |departures| ==> departures[j].parsedTime == old(departures[j].parsedTime)
  {
    ghost var a0, d0 := Entries(arrivals), Entries(departures);
    var fromArrivals := FilterByGate(arrivals, query, "A");
    ghost var d1 := Entries(departures);
    forall j | 0 <= j < |departures|
      ensures d1[j] == d0[j] || (departures[j] in arrivals && d1[j] == Tagged(d0[j], query, "A"))
    {
      if departures[j] in arrivals {
        var i :| 0 <= i < |arrivals| && arrivals[i] == departures[j];
        assert a0[i] == d0[j];
      }
    }
    ByGateIgnoresTag(departures, d1, d0, query);
    var fromDepartures := FilterByGate(departures, query, "D");
    forall j | 0 <= j < |departures|
      ensures departures[j].entries == Tagged(d0[j], query, "D")
    {
      if d1[j] != d0[j] {
        RetaggedOverrides(d0[j], query, "A", "D");
      }
    }
    forall j | 0 <= j < |departures|
      ensures AgreeExceptTag(departures[j].entries, d0[j])
    {
      TaggedAgrees(d0[j], query, "D");
    }
    forall i | 0 <= i < |arrivals|
      ensures arrivals[i].entries == Tagged(a0[i], query, if arrivals[i] in departures then "D" else "A")
    {
      if arrivals[i] in departures {
        var j :| 0 <= j < |departures| && departures[j] == arrivals[i];
        assert a0[i] == d0[j];
      }
    }
    forall i | 0 <= i < |arrivals|
      ensures AgreeExceptTag(arrivals[i].entries, a0[i])
    {
      TaggedAgrees(a0[i], query, if arrivals[i] in departures then "D" else "A");
    }
    gateFlights := fromArrivals + fromDepartures;
    GateListAgrees(arrivals, departures, a0, d0, query);
  }

  /** The selected records sit side by side with the selected flights, up to the tags. */
  lemma GateListAgrees(arrivals: seq<FlightItem>, departures: seq<FlightItem>,
                       a0: seq<Record>, d0: seq<Record>, query: string)
    requires |arrivals| == |a0| && |departures| == |d0|
    requires forall i :: 0 <= i < |arrivals| ==> AgreeExceptTag(arrivals[i].entries, a0[i])
    requires forall j :: 0 <= j < |departures| ==> AgreeExceptTag(departures[j].entries, d0[j])
    ensures var gateFlights := ByGate(arrivals, a0, query) + ByGate(departures, d0, query);
            var recs := ByGate(a0, a0, query) + ByGate(d0, d0, query);
            |gateFlights| == |recs| &&
            forall j :: 0 <= j < |gateFlights| ==> AgreeExceptTag(gateFlights[j].entries, recs[j])
  {
    var ia, id := Positions(GateMarks(a0, query)), Positions(GateMarks(d0, query));
    var fromArrivals := ByGate(arrivals, a0, query);
    var gateFlights := fromArrivals + ByGate(departures, d0, query);
    var recs := ByGate(a0, a0, query) + ByGate(d0, d0, query);
    forall j | 0 <= j < |gateFlights|
      ensures AgreeExceptTag(gateFlights[j].entries, recs[j])
    {
      if j < |fromArrivals| {
        assert gateFlights[j] == arrivals[ia[j]] && recs[j] == a0[ia[j]];
      } else {
        var k := j - |fromArrivals|;
        assert gateFlights[j] == departures[id[k]] && recs[j] == d0[id[k]];
      }
    }
  }

  /**
   * Lines 166-190 of `render`: the arrivals at the gate tagged `A`, then the
   * departures at the gate tagged `D`, and the view chosen from them.
   */
  method SearchGate(arrivals: seq<FlightItem>, departures: seq<FlightItem>, query: string, cutoff: int)
    returns (gateFlights: seq<FlightItem>, view: GateView<FlightItem>)
    modifies arrivals, departures
    ensures gateFlights == ByGate(arrivals, old(Entries(arrivals)), query) + ByGate(departures, old(Entries(departures)), query)
    ensures view == SelectView(gateFlights,
                               ByGate(old(Entries(arrivals)), old(Entries(arrivals)), query)
                               + ByGate(old(Entries(departures)), old(Entries(departures)), query),
                               cutoff)
    ensures TaggedBySearch(arrivals, departures, old(Entries(arrivals)), old(Entries(departures)), query)
    ensures Times(gateFlights) == Settled(Instants(Entries(gateFlights)), old(Times(gateFlights)))
    ensures forall f :: (f in arrivals || f in departures) && f !in gateFlights ==> f.parsedTime == old(f.parsedTime)
  {
    ghost var recs := ByGate(Entries(arrivals), Entries(arrivals), query) + ByGate(Entries(departures), Entries(departures), query);
    gateFlights := FilterBoth(arrivals, departures, query);
    ghost var now := Entries(gateFlights);
    assert Times(gateFlights) == old(Times(gateFlights));
    view := SelectNextFlight(gateFlights, cutoff);
    SelectViewIgnoresTag(gateFlights, now, recs, cutoff);
    assert Entries(gateFlights) == now;
  }
}
