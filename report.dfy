/**
 * What the two report front ends (ui_excel_download.py and the standalone
 * airflight_excel.py) share: fetching a range of days, departures and
 * arrivals day by day, and splitting the flights into one list per passenger
 * terminal, departures first, each flight tagged with its direction.
 *
 * The two copies in the source differ only in the records they handle and in
 * how they read a record's terminal, so both are parameters here.
 */
module Report {
  import opened Wrappers
  import opened Api
  import opened Subsequence
  import Config

  // ---------------------------------------------------------------- per-day fetch

  const DeparturesOperation: string := "getFltDeparturesDeOdp"
  const ArrivalsOperation: string := "getFltArrivalsDeOdp"

  function DayQuery(serviceKey: string, operation: string, day: string): Query {
    Query(Config.BaseUrl, operation, serviceKey, day)
  }

  /** The server ends the paging of the departures and of the arrivals of `day`. */
  ghost predicate DayTerminates(source: PageSource, serviceKey: string, day: string) {
    Terminates(source, DayQuery(serviceKey, DeparturesOperation, day))
    && Terminates(source, DayQuery(serviceKey, ArrivalsOperation, day))
  }

  /** The server ends the paging of every query the loop over `dates` makes, and of no other. */
  ghost predicate AllTerminate(source: PageSource, serviceKey: string, dates: seq<string>) {
    forall i :: 0 <= i < |dates| ==> DayTerminates(source, serviceKey, dates[i])
  }

  /** One day's fetch of one operation, with the items turned into the caller's records. */
  ghost function DayFetch<R>(source: PageSource, serviceKey: string, operation: string, day: string,
                             convert: seq<RawItem> -> seq<R>): Result<seq<R>, FetchError>
    requires DayTerminates(source, serviceKey, day)
    requires operation == DeparturesOperation || operation == ArrivalsOperation
  {
    match FetchOutcome(source, DayQuery(serviceKey, operation, day))
    case Failure(e) => Failure(e)
    case Success(items) => Success(convert(items))
  }

  /**
   * `for d in dates: departures.extend(fetch(dep, d)); arrivals.extend(fetch(arr, d))`:
   * the departures and arrivals of every day in turn, or the first failure, in
   * the order the requests are made.
   */
  ghost function Collected<R>(source: PageSource, serviceKey: string, dates: seq<string>,
                              convert: seq<RawItem> -> seq<R>): Result<(seq<R>, seq<R>), FetchError>
    requires AllTerminate(source, serviceKey, dates)
  {
    if dates == [] then Success(([], []))
    else
      var day := dates[|dates| - 1];
      match Collected(source, serviceKey, dates[..|dates| - 1], convert)
      case Failure(e) => Failure(e)
      case Success(sofar) =>
        match DayFetch(source, serviceKey, DeparturesOperation, day, convert)
        case Failure(e) => Failure(e)
        case Success(deps) =>
          match DayFetch(source, serviceKey, ArrivalsOperation, day, convert)
          case Failure(e) => Failure(e)
          case Success(arrs) => Success((sofar.0 + deps, sofar.1 + arrs))
  }

  /** The collection succeeds exactly when every request of every day does; one failure aborts it all. */
  lemma {:induction false} CollectedSucceeds<R>(source: PageSource, serviceKey: string, dates: seq<string>,
                                               convert: seq<RawItem> -> seq<R>)
    requires AllTerminate(source, serviceKey, dates)
    ensures Collected(source, serviceKey, dates, convert).Success? <==>
            forall i :: 0 <= i < |dates| ==>
              FetchOutcome(source, DayQuery(serviceKey, DeparturesOperation, dates[i])).Success? &&
              FetchOutcome(source, DayQuery(serviceKey, ArrivalsOperation, dates[i])).Success?
    decreases |dates|
  {
    if dates != [] {
      var init := dates[..|dates| - 1];
      CollectedSucceeds(source, serviceKey, init, convert);
      assert forall i :: 0 <= i < |init| ==> init[i] == dates[i];
    }
  }

  /** Once the days so far have failed, later days change nothing: the first failure is the outcome. */
  lemma {:induction false} CollectedFailureSticks<R>(source: PageSource, serviceKey: string, dates: seq<string>, i: nat,
                                                    convert: seq<RawItem> -> seq<R>)
    requires AllTerminate(source, serviceKey, dates)
    requires i <= |dates| && Collected(source, serviceKey, dates[..i], convert).Failure?
    ensures Collected(source, serviceKey, dates, convert) == Collected(source, serviceKey, dates[..i], convert)
    decreases |dates|
  {
    if i < |dates| {
      var init := dates[..|dates| - 1];
      assert init[..i] == dates[..i];
      CollectedFailureSticks(source, serviceKey, init, i, convert);
    } else {
      assert dates[..i] == dates;
    }
  }

  /**
   * The per-day loop: for each day, the departures and then the arrivals, each
   * fetched page by page and converted, appended to the two running lists. A
   * failing request ends it with that failure.
   */
  method FetchDays<R>(source: PageSource, serviceKey: string, dates: seq<string>, convert: seq<RawItem> -> seq<R>)
    returns (r: Result<(seq<R>, seq<R>), FetchError>)
    requires AllTerminate(source, serviceKey, dates)
    ensures r == Collected(source, serviceKey, dates, convert)
  {
    var departures: seq<R> := [];
    var arrivals: seq<R> := [];
    for i := 0 to |dates|
      invariant Collected(source, serviceKey, dates[..i], convert) == Success((departures, arrivals))
    {
      assert dates[..i + 1][..i] == dates[..i];
      var dep, _ := FetchRawFlights(source, DayQuery(serviceKey, DeparturesOperation, dates[i]));
      if dep.Failure? {
        CollectedFailureSticks(source, serviceKey, dates, i + 1, convert);
        return Failure(dep.error);
      }
      departures := departures + convert(dep.value);
      var arr, _ := FetchRawFlights(source, DayQuery(serviceKey, ArrivalsOperation, dates[i]));
      if arr.Failure? {
        CollectedFailureSticks(source, serviceKey, dates, i + 1, convert);
        return Failure(arr.error);
      }
      arrivals := arrivals + convert(arr.value);
    }
    assert dates[..|dates|] == dates;
    return Success((departures, arrivals));
  }

  // ---------------------------------------------------------------- file name

  /**
   * The workbook's file name: `head`, the start date, and `_` and the end date
   * when the range spans more than one day, then `tail`.
   */
  function RangeFilename(head: string, tail: string, startStr: string, endStr: string): string {
    head + (if startStr == endStr then startStr else startStr + "_" + endStr) + tail
  }

  /** Ranges of eight-character dates get different file names, so a name determines its range. */
  lemma RangeFilenameInjective(head: string, tail: string, s: string, e: string, s': string, e': string)
    requires |s| == |e| == |s'| == |e'| == 8
    requires RangeFilename(head, tail, s, e) == RangeFilename(head, tail, s', e')
    ensures s == s' && e == e'
  {
    var n, n' := RangeFilename(head, tail, s, e), RangeFilename(head, tail, s', e');
    var h := |head|;
    assert (s == e) == (s' == e') by {
      assert |n| == h + (if s == e then 8 else 17) + |tail|;
      assert |n'| == h + (if s' == e' then 8 else 17) + |tail|;
    }
    assert n[h..h + 8] == s && n'[h..h + 8] == s';
    if s != e {
      assert n[h + 9..h + 17] == e && n'[h + 9..h + 17] == e';
    }
  }

  // ---------------------------------------------------------------- terminal buckets

  /** Which records belong to terminal `tid`. */
  function TerminalMarks<R>(recs: seq<R>, terminal: R -> string, tid: string): (m: seq<bool>)
    ensures |m| == |recs| && forall i :: 0 <= i < |recs| ==> m[i] == (terminal(recs[i]) == tid)
  {
    seq(|recs|, i requires 0 <= i < |recs| => terminal(recs[i]) == tid)
  }

  /** Every record paired with the direction tag. */
  function TagAll<R>(recs: seq<R>, tag: string): (r: seq<(R, string)>)
    ensures |r| == |recs| && forall i :: 0 <= i < |recs| ==> r[i] == (recs[i], tag)
  {
    seq(|recs|, i requires 0 <= i < |recs| => (recs[i], tag))
  }

  /** The records of terminal `tid`, in order, tagged: what the loop over `recs` appends to that list. */
  function Bucket<R>(recs: seq<R>, terminal: R -> string, tid: string, tag: string): (b: seq<(R, string)>)
    ensures forall j :: 0 <= j < |b| ==> b[j].1 == tag
  {
    if recs == [] then []
    else
      var n := |recs| - 1;
      Bucket(recs[..n], terminal, tid, tag) + (if terminal(recs[n]) == tid then [(recs[n], tag)] else [])
  }

  /** The list is the tagged records at the positions whose terminal is `tid`. */
  lemma {:induction false} BucketPicks<R>(recs: seq<R>, terminal: R -> string, tid: string, tag: string)
    ensures Bucket(recs, terminal, tid, tag) == Pick(TagAll(recs, tag), Positions(TerminalMarks(recs, terminal, tid)))
    decreases |recs|
  {
    if recs != [] {
      var n := |recs| - 1;
      var init := recs[..n];
      BucketPicks(init, terminal, tid, tag);
      var marks := TerminalMarks(recs, terminal, tid);
      assert marks[..n] == TerminalMarks(init, terminal, tid);
      PickStep(TagAll(recs, tag), marks, n);
      assert marks[..n + 1] == marks;
      PickPrefix(TagAll(recs, tag), TagAll(init, tag), Positions(marks[..n]));
    }
  }

  /** A record is in the list, with the list's tag, exactly when it is one of the records and has terminal `tid`. */
  lemma {:induction false} BucketMembership<R>(recs: seq<R>, terminal: R -> string, tid: string, tag: string, x: R)
    ensures (x, tag) in Bucket(recs, terminal, tid, tag) <==> x in recs && terminal(x) == tid
    decreases |recs|
  {
    if recs != [] {
      var n := |recs| - 1;
      BucketMembership(recs[..n], terminal, tid, tag, x);
      assert recs == recs[..n] + [recs[n]];
    }
  }

  /** Picking positions that all lie in a common prefix gives the same elements. */
  lemma PickPrefix<T>(xs: seq<T>, ys: seq<T>, idx: seq<nat>)
    requires |ys| <= |xs| && forall i :: 0 <= i < |ys| ==> ys[i] == xs[i]
    requires forall j :: 0 <= j < |idx| ==> idx[j] < |ys|
    ensures Pick(xs, idx) == Pick(ys, idx)
  {
  }

  /** Terminal `t`'s list: its departures, tagged `D`, then its arrivals, tagged `A`. */
  function BucketFor<R>(departures: seq<R>, arrivals: seq<R>, terminal: R -> string, t: string): seq<(R, string)> {
    Bucket(departures, terminal, t, "D") + Bucket(arrivals, terminal, t, "A")
  }

  /** The terminal lists, one per passenger terminal. */
  function Buckets<R>(departures: seq<R>, arrivals: seq<R>, terminal: R -> string): (b: map<string, seq<(R, string)>>)
    ensures b.Keys == Config.PassengerTerminals
    ensures forall t :: t in b ==> b[t] == BucketFor(departures, arrivals, terminal, t)
  {
    map t | t in Config.PassengerTerminals :: BucketFor(departures, arrivals, terminal, t)
  }

  /**
   * `terminal_items = {tid: [] for tid in PASSENGER_TERMINALS}`, then each
   * departure and then each arrival whose terminal is a passenger terminal is
   * appended, tagged, to that terminal's list.
   */
  method BucketByTerminal<R>(departures: seq<R>, arrivals: seq<R>, terminal: R -> string)
    returns (buckets: map<string, seq<(R, string)>>)
    ensures buckets == Buckets(departures, arrivals, terminal)
  {
    var empty := map t | t in Config.PassengerTerminals :: [];
    var withDepartures := AppendAll(empty, departures, terminal, "D");
    buckets := AppendAll(withDepartures, arrivals, terminal, "A");
    ghost var expected := Buckets(departures, arrivals, terminal);
    forall t | t in Config.PassengerTerminals
      ensures buckets[t] == expected[t]
    {
      assert empty[t] == [];
      assert withDepartures[t] == Bucket(departures, terminal, t, "D");
    }
    SameEntries(buckets, expected);
  }

  /** Two maps with the same keys and the same value at each key are equal. */
  lemma SameEntries<K, V>(m: map<K, V>, n: map<K, V>)
    requires m.Keys == n.Keys && forall k :: k in m ==> m[k] == n[k]
    ensures m == n
  {
  }

  /** One bucketing loop: every record of `recs`, in turn, appended tagged to its terminal's list. */
  method AppendAll<R>(buckets: map<string, seq<(R, string)>>, recs: seq<R>, terminal: R -> string, tag: string)
    returns (next: map<string, seq<(R, string)>>)
    requires buckets.Keys == Config.PassengerTerminals
    ensures next.Keys == Config.PassengerTerminals
    ensures forall t :: t in Config.PassengerTerminals ==> next[t] == buckets[t] + Bucket(recs, terminal, t, tag)
  {
    next := buckets;
    for i := 0 to |recs|
      invariant next.Keys == Config.PassengerTerminals
      invariant forall t :: t in Config.PassengerTerminals ==>
                  next[t] == buckets[t] + Bucket(recs[..i], terminal, t, tag)
    {
      next := AddTagged(next, recs, i, terminal, tag, buckets);
    }
    assert recs[..|recs|] == recs;
  }

  /**
   * One iteration of a bucketing loop: record `i` of `recs` goes, tagged, at the
   * end of its terminal's list when that is a passenger terminal. `base` is what
   * the lists held before the loop began.
   */
  method AddTagged<R>(buckets: map<string, seq<(R, string)>>, recs: seq<R>, i: nat, terminal: R -> string, tag: string,
                      ghost base: map<string, seq<(R, string)>>)
    returns (next: map<string, seq<(R, string)>>)
    requires i < |recs| && buckets.Keys == base.Keys == Config.PassengerTerminals
    requires forall t :: t in Config.PassengerTerminals ==> buckets[t] == base[t] + Bucket(recs[..i], terminal, t, tag)
    ensures next.Keys == Config.PassengerTerminals
    ensures forall t :: t in Config.PassengerTerminals ==> next[t] == base[t] + Bucket(recs[..i + 1], terminal, t, tag)
  {
    var tid := terminal(recs[i]);
    next := buckets;
    if tid in Config.PassengerTerminals {
      next := buckets[tid := buckets[tid] + [(recs[i], tag)]];
    }
    assert recs[..i + 1][..i] == recs[..i];
  }

  /**
   * Terminal `t`'s list holds that terminal's departures, in their order and
   * tagged `D`, followed by its arrivals, in their order and tagged `A`.
   */
  lemma BucketContents<R>(departures: seq<R>, arrivals: seq<R>, terminal: R -> string, t: string)
    ensures var dp := Positions(TerminalMarks(departures, terminal, t));
            var ap := Positions(TerminalMarks(arrivals, terminal, t));
            var b := BucketFor(departures, arrivals, terminal, t);
            && |b| == |dp| + |ap|
            && (forall j :: 0 <= j < |dp| ==> b[j] == (departures[dp[j]], "D"))
            && (forall j :: 0 <= j < |ap| ==> b[|dp| + j] == (arrivals[ap[j]], "A"))
  {
    BucketPicks(departures, terminal, t, "D");
    BucketPicks(arrivals, terminal, t, "A");
  }

  /**
   * A list keeps the order of the records it takes, and takes a record exactly
   * when its terminal is `t`.
   */
  lemma BucketSelection<R>(recs: seq<R>, terminal: R -> string, t: string)
    ensures var p := Positions(TerminalMarks(recs, terminal, t));
            && (forall j, k :: 0 <= j < k < |p| ==> p[j] < p[k])
            && (forall i :: 0 <= i < |recs| ==> (terminal(recs[i]) == t <==> i in p))
  {
    PositionsSpec(TerminalMarks(recs, terminal, t));
  }

  /** Within a list, no departure follows an arrival. */
  lemma DeparturesFirst<R>(departures: seq<R>, arrivals: seq<R>, terminal: R -> string, t: string)
    ensures var b := BucketFor(departures, arrivals, terminal, t);
            forall j, k :: 0 <= j < k < |b| && b[j].1 == "A" ==> b[k].1 == "A"
  {
    var d := Bucket(departures, terminal, t, "D");
    var a := Bucket(arrivals, terminal, t, "A");
    var b := d + a;
    assert forall j :: 0 <= j < |d| ==> b[j] == d[j];
    assert forall k :: |d| <= k < |b| ==> b[k] == a[k - |d|];
  }

  /** The length of a list, or 0 for a terminal with none. */
  function Size<R>(b: map<string, seq<(R, string)>>, t: string): nat {
    if t in b then |b[t]| else 0
  }

  /** `sum(len(v) for v in terminal_items.values())`, over the three passenger terminals. */
  function Total<R>(b: map<string, seq<(R, string)>>): nat {
    Size(b, "P01") + Size(b, "P02") + Size(b, "P03")
  }

  /** A passenger terminal's list has one entry per departure and arrival of that terminal. */
  lemma BucketSize<R>(departures: seq<R>, arrivals: seq<R>, terminal: R -> string, t: string)
    requires t in Config.PassengerTerminals
    ensures Size(Buckets(departures, arrivals, terminal), t) ==
            |Positions(TerminalMarks(departures, terminal, t))| + |Positions(TerminalMarks(arrivals, terminal, t))|
  {
    BucketPicks(departures, terminal, t, "D");
    BucketPicks(arrivals, terminal, t, "A");
  }

  /** Which records belong to some passenger terminal. */
  function PassengerMarks<R>(recs: seq<R>, terminal: R -> string): (m: seq<bool>)
    ensures |m| == |recs| && forall i :: 0 <= i < |recs| ==> m[i] == (terminal(recs[i]) in Config.PassengerTerminals)
  {
    seq(|recs|, i requires 0 <= i < |recs| => terminal(recs[i]) in Config.PassengerTerminals)
  }

  /** A record belongs to at most one passenger terminal, so the three lists of one direction add up. */
  lemma PassengerCount<R>(recs: seq<R>, terminal: R -> string)
    ensures |Positions(TerminalMarks(recs, terminal, "P01"))| + |Positions(TerminalMarks(recs, terminal, "P02"))|
            + |Positions(TerminalMarks(recs, terminal, "P03"))| == |Positions(PassengerMarks(recs, terminal))|
  {
    Config.PassengerTerminalCodes();
    DisjointCount(TerminalMarks(recs, terminal, "P01"), TerminalMarks(recs, terminal, "P02"),
                  TerminalMarks(recs, terminal, "P03"), PassengerMarks(recs, terminal));
  }

  /**
   * The total counts each flight of a passenger terminal once, so it never
   * exceeds the number of departures and arrivals fetched.
   */
  lemma TotalCounts<R>(departures: seq<R>, arrivals: seq<R>, terminal: R -> string)
    ensures Total(Buckets(departures, arrivals, terminal)) ==
            |Positions(PassengerMarks(departures, terminal))| + |Positions(PassengerMarks(arrivals, terminal))|
    ensures Total(Buckets(departures, arrivals, terminal)) <= |departures| + |arrivals|
  {
    Config.PassengerTerminalCodes();
    BucketSize(departures, arrivals, terminal, "P01");
    BucketSize(departures, arrivals, terminal, "P02");
    BucketSize(departures, arrivals, terminal, "P03");
    PassengerCount(departures, terminal);
    PassengerCount(arrivals, terminal);
    PositionsBound(PassengerMarks(departures, terminal));
    PositionsBound(PassengerMarks(arrivals, terminal));
  }

  /** When no record names a passenger terminal, every list is empty and the total is 0. */
  lemma NoPassengerTerminalNoFlights<R>(departures: seq<R>, arrivals: seq<R>, terminal: R -> string)
    requires forall i :: 0 <= i < |departures| ==> terminal(departures[i]) !in Config.PassengerTerminals
    requires forall i :: 0 <= i < |arrivals| ==> terminal(arrivals[i]) !in Config.PassengerTerminals
    ensures forall t :: t in Config.PassengerTerminals ==> Buckets(departures, arrivals, terminal)[t] == []
    ensures Total(Buckets(departures, arrivals, terminal)) == 0
  {
    Config.PassengerTerminalCodes();
    forall t | t in Config.PassengerTerminals
      ensures Buckets(departures, arrivals, terminal)[t] == []
    {
      NoneMarked(TerminalMarks(departures, terminal, t));
      NoneMarked(TerminalMarks(arrivals, terminal, t));
      BucketPicks(departures, terminal, t, "D");
      BucketPicks(arrivals, terminal, t, "A");
    }
  }
}
