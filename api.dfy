/**
 * The flight-status API client (api.py): the paging loop that collects every
 * item of one day's departures or arrivals, and the allow-list that turns a raw
 * API item into the application's internal record.
 *
 * The HTTP call is a parameter: a page source maps each request to the page
 * body the server answers with, or to the failure that `raise_for_status` (or
 * the transport) raises.
 */
module Api {
  import opened Wrappers
  import Config

  /** A value of a raw JSON item: `None` is JSON `null`. */
  type RawItem = map<string, Option<string>>

  /** An internal record: none of its values is `None`. */
  type Record = map<string, string>

  // ---------------------------------------------------------------- dict helpers

  /** `d.get(k, default)`. */
  function GetOrDefault(d: Record, k: string, default: string): (r: string)
    ensures k in d ==> r == d[k]
    ensures k !in d ==> r == default
  {
    if k in d then d[k] else default
  }

  /** `d.get(k) or default`: a missing key and an empty string both give `default`. */
  function GetOr(d: Record, k: string, default: string): (r: string)
    ensures r == default || (k in d && r == d[k] && r != "")
    ensures k in d && d[k] != "" ==> r == d[k]
  {
    if k in d && d[k] != "" then d[k] else default
  }

  // ---------------------------------------------------------------- _convert_to_internal

  /** `_API_FIELD_MAP`: API key to internal name. */
  const FieldMap: map<string, string> := map[
    "flightId" := "flight_number",
    "scheduleDatetime" := "scheduled_datetime",
    "estimatedDatetime" := "actual_datetime",
    "airport" := "airport_name",
    "aircraftSubtype" := "aircraft_type",
    "aircraftRegNo" := "registration_number",
    "fstandPosition" := "gate_number",
    "remark" := "remark",
    "terminalId" := "terminal_id",
    "codeshare" := "codeshare",
    "typeOfFlight" := "type_of_flight"
  ]

  /** No two API keys share an internal name, so the renaming loses nothing. */
  lemma FieldMapInjective()
    ensures forall a, b :: a in FieldMap && b in FieldMap && FieldMap[a] == FieldMap[b] ==> a == b
  {
    forall a, b | a in FieldMap && b in FieldMap && FieldMap[a] == FieldMap[b]
      ensures a == b
    {
      // The eleven internal names differ in their length or their first letter.
      var x, y := FieldMap[a], FieldMap[b];
      assert |x| == |y| && x[0] == y[0];
    }
  }

  /** The records carry `terminal_id`; no record can carry the API's own key `terminalId`. */
  lemma TerminalKeyRenamed()
    ensures FieldMap["terminalId"] == "terminal_id"
    ensures "terminalId" !in FieldMap.Values
  {
  }

  /** `_convert_to_internal(raw)`: keep the mapped keys whose value is present and not `null`, renamed. */
  function ConvertToInternal(raw: RawItem): Record {
    FieldMapInjective();
    map a | a in FieldMap && a in raw && raw[a].Some? :: FieldMap[a] := raw[a].value
  }

  /**
   * Only internal names appear; an internal name is present exactly when its API
   * key is present with a non-`null` value; and the value is copied unchanged.
   */
  lemma ConvertToInternalSpec(raw: RawItem)
    ensures ConvertToInternal(raw).Keys <= FieldMap.Values
    ensures forall a :: a in FieldMap ==> (FieldMap[a] in ConvertToInternal(raw) <==> a in raw && raw[a].Some?)
    ensures forall a :: a in FieldMap && FieldMap[a] in ConvertToInternal(raw) ==>
              ConvertToInternal(raw)[FieldMap[a]] == raw[a].value
  {
    var r := ConvertToInternal(raw);
    FieldMapInjective();
    forall n | n in r
      ensures n in FieldMap.Values
    {
      var a :| a in FieldMap && a in raw && raw[a].Some? && FieldMap[a] == n;
    }
  }

  /** Keys outside the allow-list never reach the record, whatever their value. */
  lemma UnmappedKeysIgnored(raw: RawItem, k: string, v: Option<string>)
    requires k !in FieldMap
    ensures ConvertToInternal(raw[k := v]) == ConvertToInternal(raw)
  {
    var raw' := raw[k := v];
    assert forall a :: a in FieldMap ==> (a in raw' <==> a in raw) && (a in raw ==> raw'[a] == raw[a]);
  }

  /** An empty string is a value: it is kept, unlike `null`. */
  lemma EmptyStringKept(raw: RawItem, a: string)
    requires a in FieldMap && a in raw && raw[a] == Some("")
    ensures FieldMap[a] in ConvertToInternal(raw) && ConvertToInternal(raw)[FieldMap[a]] == ""
  {
  }

  /** `[_convert_to_internal(x) for x in raw_items]`. */
  function ConvertAll(raws: seq<RawItem>): (r: seq<Record>)
    ensures |r| == |raws|
    ensures forall i :: 0 <= i < |raws| ==> r[i] == ConvertToInternal(raws[i])
  {
    seq(|raws|, i requires 0 <= i < |raws| => ConvertToInternal(raws[i]))
  }

  lemma ConvertAllConcat(a: seq<RawItem>, b: seq<RawItem>)
    ensures ConvertAll(a + b) == ConvertAll(a) + ConvertAll(b)
  {
    var l, r := ConvertAll(a + b), ConvertAll(a) + ConvertAll(b);
    assert |l| == |r|;
    forall i | 0 <= i < |l|
      ensures l[i] == r[i]
    {
      if i < |a| {
        calc {
          l[i];
          ConvertToInternal((a + b)[i]);
          { assert (a + b)[i] == a[i]; }
          ConvertToInternal(a[i]);
          ConvertAll(a)[i];
          r[i];
        }
      } else {
        calc {
          l[i];
          ConvertToInternal((a + b)[i]);
          { assert (a + b)[i] == b[i - |a|]; }
          ConvertToInternal(b[i - |a|]);
          ConvertAll(b)[i - |a|];
          r[i];
        }
      }
    }
  }

  // ---------------------------------------------------------------- pages

  /** What one call of the paging loop asks for: an operation of the API on one day. */
  datatype Query = Query(baseUrl: string, operation: string, serviceKey: string, searchDate: string)

  /** The URL and query parameters of one page request. */
  datatype Request = Request(url: string, serviceKey: string, format: string, numOfRows: nat, pageNo: nat, searchDate: string)

  /**
   * The `response.body` object of a decoded page. `None` is a key the body
   * does not carry (including a response with no body at all).
   */
  datatype Body = Body(totalCount: Option<int>, items: Option<seq<RawItem>>)

  /** Why a request failed: an HTTP error status or a transport error. */
  datatype FetchError = HttpError(status: int) | TransportError

  type PageSource = Request -> Result<Body, FetchError>

  function RequestFor(q: Query, page: nat): Request {
    Request(q.baseUrl + "/" + q.operation, q.serviceKey, "json", Config.NumOfRows, page, q.searchDate)
  }

  /** `body.get("totalCount", 0)`. */
  function TotalCount(b: Body): int {
    b.totalCount.GetOr(0)
  }

  /** `body.get("items", [])`. */
  function Items(b: Body): seq<RawItem> {
    b.items.GetOr([])
  }

  /** The items page `n` contributes (a failed page contributes nothing, and ends the run). */
  ghost function PageItems(source: PageSource, q: Query, n: nat): seq<RawItem> {
    match source(RequestFor(q, n))
    case Success(b) => Items(b)
    case Failure(_) => []
  }

  /** The items of pages 1..n, in order. */
  ghost function Accumulated(source: PageSource, q: Query, n: nat): seq<RawItem> {
    if n == 0 then [] else Accumulated(source, q, n - 1) + PageItems(source, q, n)
  }

  /**
   * The loop ends at page `n`: the request failed, the page had no items, or
   * the running count reached the total that page declared.
   */
  ghost predicate StopsAt(source: PageSource, q: Query, n: nat) {
    match source(RequestFor(q, n))
    case Failure(_) => true
    case Success(b) => Items(b) == [] || |Accumulated(source, q, n)| >= TotalCount(b)
  }

  /** The server eventually answers a page that ends the loop. */
  ghost predicate Terminates(source: PageSource, q: Query) {
    exists n :: n >= 1 && StopsAt(source, q, n)
  }

  /** The page the loop ends at: the first that stops it. */
  ghost predicate IsLastPage(source: PageSource, q: Query, n: nat) {
    n >= 1 && StopsAt(source, q, n) && forall m :: 1 <= m < n ==> !StopsAt(source, q, m)
  }

  lemma {:induction false} LastPageExists(source: PageSource, q: Query, n: nat)
    requires n >= 1 && StopsAt(source, q, n)
    ensures exists k :: IsLastPage(source, q, k)
    decreases n
  {
    if forall m :: 1 <= m < n ==> !StopsAt(source, q, m) {
      assert IsLastPage(source, q, n);
    } else {
      var m :| 1 <= m < n && StopsAt(source, q, m);
      LastPageExists(source, q, m);
    }
  }

  lemma LastPageUnique(source: PageSource, q: Query, n: nat, k: nat)
    requires IsLastPage(source, q, n) && IsLastPage(source, q, k)
    ensures n == k
  {
  }

  /** The number of pages the loop requests. */
  ghost function PageCount(source: PageSource, q: Query): (n: nat)
    requires Terminates(source, q)
    ensures IsLastPage(source, q, n)
  {
    var h :| h >= 1 && StopsAt(source, q, h);
    LastPageExists(source, q, h);
    var n :| IsLastPage(source, q, n);
    n
  }

  /** What `_fetch_raw_flights` returns or raises. */
  ghost function FetchOutcome(source: PageSource, q: Query): Result<seq<RawItem>, FetchError>
    requires Terminates(source, q)
  {
    var n := PageCount(source, q);
    match source(RequestFor(q, n))
    case Failure(err) => Failure(err)
    case Success(_) => Success(Accumulated(source, q, n))
  }

  /**
   * `_fetch_raw_flights(operation, search_date)`: request page 1, 2, … in turn,
   * append each page's items, and stop on an empty page or once the running
   * count reaches the page's `totalCount`. A failed request aborts the fetch.
   */
  method FetchRawFlights(source: PageSource, q: Query) returns (r: Result<seq<RawItem>, FetchError>, ghost requests: seq<Request>)
    requires Terminates(source, q)
    ensures |requests| == PageCount(source, q)
    ensures forall i :: 0 <= i < |requests| ==> requests[i] == RequestFor(q, i + 1)
    ensures r == FetchOutcome(source, q)
  {
    ghost var h :| h >= 1 && StopsAt(source, q, h);
    var all: seq<RawItem> := [];
    var page: nat := 1;
    requests := [];
    while true
      invariant 1 <= page <= h
      invariant all == Accumulated(source, q, page - 1)
      invariant |requests| == page - 1
      invariant forall i :: 0 <= i < |requests| ==> requests[i] == RequestFor(q, i + 1)
      invariant forall m :: 1 <= m < page ==> !StopsAt(source, q, m)
      decreases h - page
    {
      var response := source(RequestFor(q, page));
      requests := requests + [RequestFor(q, page)];
      if response.Failure? {
        assert IsLastPage(source, q, page);
        return Failure(response.error), requests;
      }
      var body := response.value;
      var total := TotalCount(body);
      var items := Items(body);
      if items == [] {
        assert IsLastPage(source, q, page);
        assert all == Accumulated(source, q, page);
        return Success(all), requests;
      }
      all := all + items;
      if |all| >= total {
        assert IsLastPage(source, q, page);
        return Success(all), requests;
      }
      assert !StopsAt(source, q, page);
      page := page + 1;
    }
  }

  /** `fetch_all_flights(operation, search_date)`: the fetched items, each converted. */
  method FetchAllFlights(source: PageSource, q: Query) returns (r: Result<seq<Record>, FetchError>)
    requires Terminates(source, q)
    ensures FetchOutcome(source, q).Failure? ==> r == Failure(FetchOutcome(source, q).error)
    ensures FetchOutcome(source, q).Success? ==> r == Success(ConvertAll(FetchOutcome(source, q).value))
  {
    var raw, _ := FetchRawFlights(source, q);
    if raw.Failure? {
      return Failure(raw.error);
    }
    return Success(ConvertAll(raw.value));
  }

  // ---------------------------------------------------------------- properties of the loop

  /** Once page `n` ends the loop, every earlier page had items and left the count short of its total. */
  lemma EarlierPagesContinue(source: PageSource, q: Query, m: nat)
    requires Terminates(source, q) && 1 <= m < PageCount(source, q)
    ensures source(RequestFor(q, m)).Success?
    ensures Items(source(RequestFor(q, m)).value) != []
    ensures |Accumulated(source, q, m)| < TotalCount(source(RequestFor(q, m)).value)
  {
    assert !StopsAt(source, q, m);
  }

  /** An empty page ends the loop and adds nothing to the result. */
  lemma EmptyPageAddsNothing(source: PageSource, q: Query, n: nat)
    requires n >= 1 && source(RequestFor(q, n)).Success? && Items(source(RequestFor(q, n)).value) == []
    ensures StopsAt(source, q, n)
    ensures Accumulated(source, q, n) == Accumulated(source, q, n - 1)
  {
  }

  /** A failed request at any page means the fetch fails, with no partial result. */
  lemma FailureAborts(source: PageSource, q: Query)
    requires Terminates(source, q)
    ensures FetchOutcome(source, q).Failure? <==> source(RequestFor(q, PageCount(source, q))).Failure?
  {
  }

  /** Page `i`'s items sit, unchanged and in place, in the items of every later page count. */
  lemma {:induction false} AccumulatedPages(source: PageSource, q: Query, n: nat, i: nat)
    requires 1 <= i <= n
    ensures var all, upTo, page := Accumulated(source, q, n), Accumulated(source, q, i), PageItems(source, q, i);
            && upTo <= all
            && |page| <= |upTo|
            && all[|upTo| - |page|..|upTo|] == page
    decreases n
  {
    if i < n {
      AccumulatedPages(source, q, n - 1, i);
      var prev, all := Accumulated(source, q, n - 1), Accumulated(source, q, n);
      assert prev <= all;
      var upTo := Accumulated(source, q, i);
      var lo := |upTo| - |PageItems(source, q, i)|;
      assert all[lo..|upTo|] == prev[lo..|upTo|];
    }
  }

  // ---------------------------------------------------------------- two paging examples

  const ExampleItem: RawItem := map["flightId" := Some("KE001")]

  function Repeat(n: nat): (s: seq<RawItem>)
    ensures |s| == n
  {
    seq(n, _ => ExampleItem)
  }

  /** A server holding 2500 flights: pages of 1000, 1000 and 500 items, then nothing. */
  function ThreePageSource(r: Request): Result<Body, FetchError> {
    var n := if r.pageNo == 1 || r.pageNo == 2 then 1000 else if r.pageNo == 3 then 500 else 0;
    Success(Body(Some(2500), Some(Repeat(n))))
  }

  /** 2500 flights in pages of 1000: three requests and all 2500 items. */
  lemma ThreePages(q: Query)
    ensures Terminates(ThreePageSource, q)
    ensures PageCount(ThreePageSource, q) == 3
    ensures FetchOutcome(ThreePageSource, q).Success?
    ensures |FetchOutcome(ThreePageSource, q).value| == 2500
  {
    assert |Accumulated(ThreePageSource, q, 1)| == 1000;
    assert |Accumulated(ThreePageSource, q, 2)| == 2000;
    assert |Accumulated(ThreePageSource, q, 3)| == 2500;
    assert !StopsAt(ThreePageSource, q, 1) && !StopsAt(ThreePageSource, q, 2);
    assert IsLastPage(ThreePageSource, q, 3);
    LastPageUnique(ThreePageSource, q, 3, PageCount(ThreePageSource, q));
  }

  /** A server whose first page is empty. */
  function EmptySource(r: Request): Result<Body, FetchError> {
    Success(Body(Some(0), Some([])))
  }

  /** An empty first page: one request and no items. */
  lemma EmptyFirstPage(q: Query)
    ensures Terminates(EmptySource, q)
    ensures PageCount(EmptySource, q) == 1
    ensures FetchOutcome(EmptySource, q) == Success([])
  {
    assert IsLastPage(EmptySource, q, 1);
    LastPageUnique(EmptySource, q, 1, PageCount(EmptySource, q));
  }
}
