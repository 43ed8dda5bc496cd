/**
  Paged table queries: the continuation token, and the loop that asks for
  pages until the limit is reached or the service has no more. The service
  scans a table in key order and may answer a page early, with fewer rows than
  asked for or none at all.
*/
module PagingModel {
  import opened Base

  const SEPARATOR: char := '\0'

  // -------------------------------------------------------------------- tokens

  function EncodeContinuation(partition: Option<string>, row: Option<string>): Option<string> {
    match (partition, row)
    case (Some(pk), Some(rk)) => Some(pk + [SEPARATOR] + rk)
    case (Some(pk), None) => Some(pk)
    case _ => None
  }

  /** The token cut at its first separator. */
  function DecodeContinuation(token: string): (string, Option<string>) {
    if token == [] then ([], None)
    else if token[0] == SEPARATOR then ([], Some(token[1..]))
    else
      var (pk, rk) := DecodeContinuation(token[1..]);
      ([token[0]] + pk, rk)
  }

  lemma {:induction false} DecodeAtSeparator(pk: string, rest: string)
    requires SEPARATOR !in pk && (rest == [] || rest[0] == SEPARATOR)
    ensures DecodeContinuation(pk + rest) == (pk, if rest == [] then None else Some(rest[1..]))
  {
    if pk == [] {
      assert pk + rest == rest;
      assert rest == [] ==> DecodeContinuation(rest) == ([], None);
      assert rest != [] ==> DecodeContinuation(rest) == ([], Some(rest[1..]));
    } else {
      assert [pk[0]] + pk[1..] == pk;
      assert (pk + rest)[1..] == pk[1..] + rest;
      DecodeAtSeparator(pk[1..], rest);
    }
  }

  lemma {:induction false} DecodedHasNoSeparator(token: string)
    ensures SEPARATOR !in DecodeContinuation(token).0
  {
    if token != [] && token[0] != SEPARATOR {
      DecodedHasNoSeparator(token[1..]);
    }
  }

  /** A token is read back as the keys it was made of exactly when the partition key has no U+0000. */
  lemma TokenReadsBack(pk: string, rk: Option<string>)
    ensures EncodeContinuation(Some(pk), rk).Some?
    ensures DecodeContinuation(EncodeContinuation(Some(pk), rk).value) == (pk, rk) <==> '\0' !in pk
  {
    var token := EncodeContinuation(Some(pk), rk).value;
    DecodedHasNoSeparator(token);
    if SEPARATOR !in pk {
      var rest := if rk.Some? then [SEPARATOR] + rk.value else [];
      DecodeAtSeparator(pk, rest);
      assert token == pk + rest;
    }
  }

  // ------------------------------------------------------------------- service

  /** A table of rows in key order, and the part of it a query asks for. */
  datatype Table<!Row> = Table(rows: seq<Row>, wanted: Row -> bool)

  /** The wanted rows among those at positions `from` up to `till`. */
  function Scan<Row>(t: Table<Row>, from: nat, till: nat): seq<Row>
    requires from <= till <= |t.rows|
    decreases till - from
  {
    if from == till then []
    else (if t.wanted(t.rows[from]) then [t.rows[from]] else []) + Scan(t, from + 1, till)
  }

  /** A response: the wanted rows of a stretch of the table, and where the next one starts. */
  datatype Page<!Row> = Page(documents: seq<Row>, partition: Option<string>, row: Option<string>)

  /** How the service finds its place again from the keys of a continuation. */
  type Locate = (string, Option<string>) -> nat

  /**
    What the service promises of a page asked for at `from` with at most `top`
    rows: it scans on to some `till`, further than `from` unless the table ends,
    and its keys lead back to `till`; without keys the table ended.
  */
  ghost predicate Faithful<Row>(t: Table<Row>, locate: Locate, from: nat, top: Option<nat>, page: Page<Row>, till: nat)
    requires from <= |t.rows|
  {
    && from <= till <= |t.rows| && (from < |t.rows| ==> from < till)
    && page.documents == Scan(t, from, till)
    && (top.Some? ==> |page.documents| <= top.value)
    && (page.partition.None? ==> till == |t.rows|)
    && (page.partition.Some? ==>
          from < till && SEPARATOR !in page.partition.value && locate(page.partition.value, page.row) == till)
  }

  lemma {:induction false} ScanJoins<Row>(t: Table<Row>, from: nat, mid: nat, till: nat)
    requires from <= mid <= till <= |t.rows|
    ensures Scan(t, from, till) == Scan(t, from, mid) + Scan(t, mid, till)
    decreases mid - from
  {
    if from < mid {
      ScanJoins(t, from + 1, mid, till);
    }
  }

  /** Where a query with this continuation starts. */
  function Start(locate: Locate, continuation: Option<string>): nat {
    if continuation.None? then 0
    else var (pk, rk) := DecodeContinuation(continuation.value); locate(pk, rk)
  }

  // --------------------------------------------------------------------- query

  datatype Options = Options(limit: Option<nat>, offset: Option<nat>, continuation: Option<string>)

  datatype QueryResult<!Row> = QueryResult(documents: seq<Row>, continuation: Option<string>)

  datatype Error = OffsetUnsupported

  /** The documents are the wanted rows from the start up to where the token leads, or to the end. */
  ghost predicate Answers<Row>(t: Table<Row>, locate: Locate, start: nat, r: QueryResult<Row>) {
    var end := if r.continuation.None? then |t.rows| else Start(locate, r.continuation);
    start <= end <= |t.rows| && r.documents == Scan(t, start, end)
  }

  /**
    The paging loop. `serve(n, from, top)` is the service's answer to the n-th
    request and `next(n, from, top)` where its scan stopped; the service may
    answer the same request differently each time.
  */
  method Query<Row>(t: Table<Row>, locate: Locate, serve: (nat, nat, Option<nat>) -> Page<Row>,
                    ghost next: (nat, nat, Option<nat>) -> nat, options: Options)
    returns (r: Result<QueryResult<Row>, Error>)
    requires Start(locate, options.continuation) <= |t.rows|
    requires forall n: nat, from: nat, top: Option<nat> | from <= |t.rows| && top != Some(0) ::
               Faithful(t, locate, from, top, serve(n, from, top), next(n, from, top))
    ensures r.Err? <==> options.offset.Some? && options.offset.value > 0
    ensures r.Ok? && options.limit == Some(0) ==>
              r.value == QueryResult([], options.continuation)
    ensures r.Ok? && options.limit != Some(0) ==>
              Answers(t, locate, Start(locate, options.continuation), r.value)
    ensures r.Ok? && options.limit.Some? ==> |r.value.documents| <= options.limit.value
    ensures r.Ok? && options.limit.None? ==> r.value.continuation.None?
    ensures r.Ok? && r.value.continuation.Some? && options.limit != Some(0) ==>
              |r.value.documents| == options.limit.value
  {
    if options.offset.Some? && options.offset.value > 0 {
      return Err(OffsetUnsupported);
    }
    if options.limit == Some(0) {
      return Ok(QueryResult([], options.continuation));
    }
    ghost var start := Start(locate, options.continuation);
    var documents: seq<Row> := [];
    var continuation := options.continuation;
    var requests := 0;
    ghost var at := start;
    while true
      invariant start <= at <= |t.rows| && Start(locate, continuation) == at
      invariant documents == Scan(t, start, at)
      invariant options.limit.Some? ==> |documents| < options.limit.value
      decreases |t.rows| - at
    {
      var remaining := if options.limit.None? then None else Some(options.limit.value - |documents|);
      var from := Start(locate, continuation);
      var page := serve(requests, from, remaining);
      ghost var till := next(requests, from, remaining);
      assert Faithful(t, locate, from, remaining, page, till);
      ScanJoins(t, start, at, till);
      documents := documents + page.documents;
      continuation := EncodeContinuation(page.partition, page.row);
      if page.partition.Some? {
        TokenReadsBack(page.partition.value, page.row);
      }
      at := till;
      if continuation.None? || (options.limit.Some? && |documents| >= options.limit.value) {
        break;
      }
      requests := requests + 1;
    }
    r := Ok(QueryResult(documents, continuation));
  }

  /** Resuming from a token appends exactly the rest: nothing is skipped and nothing comes twice. */
  lemma ResumingJoins<Row>(t: Table<Row>, locate: Locate, start: nat, first: QueryResult<Row>, second: QueryResult<Row>)
    requires Answers(t, locate, start, first) && first.continuation.Some?
    requires Answers(t, locate, Start(locate, first.continuation), second)
    ensures Answers(t, locate, start, QueryResult(first.documents + second.documents, second.continuation))
  {
    var end := if second.continuation.None? then |t.rows| else Start(locate, second.continuation);
    ScanJoins(t, start, Start(locate, first.continuation), end);
  }

  /** A limited query's documents are a prefix of the whole answer, and a query without a limit gives it all. */
  lemma PrefixOfWhole<Row>(t: Table<Row>, locate: Locate, start: nat, r: QueryResult<Row>)
    requires Answers(t, locate, start, r)
    ensures r.documents <= Scan(t, start, |t.rows|)
    ensures r.continuation.None? ==> r.documents == Scan(t, start, |t.rows|)
    ensures r.continuation.Some? ==>
              r.documents + Scan(t, Start(locate, r.continuation), |t.rows|) == Scan(t, start, |t.rows|)
  {
    if r.continuation.Some? {
      ScanJoins(t, start, Start(locate, r.continuation), |t.rows|);
    }
  }

  /** Following the tokens to the end, a limited page at a time, gives the whole answer. */
  method AllPages<Row>(t: Table<Row>, locate: Locate, serve: (nat, nat, Option<nat>) -> Page<Row>,
                       ghost next: (nat, nat, Option<nat>) -> nat, limit: nat)
    returns (documents: seq<Row>)
    requires 0 < limit
    requires forall n: nat, from: nat, top: Option<nat> | from <= |t.rows| && top != Some(0) ::
               Faithful(t, locate, from, top, serve(n, from, top), next(n, from, top))
    ensures documents == Scan(t, 0, |t.rows|)
  {
    documents := [];
    var token := None;
    ghost var at := 0;
    while true
      invariant at <= |t.rows| && Start(locate, token) == at
      invariant documents == Scan(t, 0, at)
      decreases |t.rows| - at
    {
      var page := Query(t, locate, serve, next, Options(Some(limit), None, token));
      ghost var end := if page.value.continuation.None? then |t.rows| else Start(locate, page.value.continuation);
      ScanJoins(t, 0, at, end);
      documents := documents + page.value.documents;
      if page.value.continuation.None? {
        return;
      }
      token, at := page.value.continuation, end;
    }
  }

  // ------------------------------------------------------- a service that keeps it

  /** A key that leads back to a position: one character for each row before it. */
  function KeyOf(position: nat): string {
    seq(position, _ => 'k')
  }

  function PositionOf(partition: string, row: Option<string>): nat {
    |partition|
  }

  /** The page of a service that looks at one row a request. */
  function OneRowPage<Row>(t: Table<Row>, from: nat): Page<Row> {
    if from >= |t.rows| then Page([], None, None)
    else Page(Scan(t, from, from + 1), if from + 1 == |t.rows| then None else Some(KeyOf(from + 1)), None)
  }

  function OneRowOn<Row>(t: Table<Row>, from: nat): nat {
    if from >= |t.rows| then |t.rows| else from + 1
  }

  /** Such a service keeps the promise for every table, every row of it wanted included. */
  lemma OneRowServiceIsFaithful<Row>(t: Table<Row>, from: nat, top: Option<nat>)
    requires from <= |t.rows| && top != Some(0)
    ensures Faithful(t, PositionOf, from, top, OneRowPage(t, from), OneRowOn(t, from))
  {
    if from < |t.rows| {
      assert Scan(t, from + 1, from + 1) == [];
    }
  }

  lemma ScanOfWanted<Row>(t: Table<Row>, from: nat, till: nat)
    requires from <= till <= |t.rows| && forall row | row in t.rows :: t.wanted(row)
    ensures Scan(t, from, till) == t.rows[from..till]
    decreases till - from
  {
    if from < till {
      ScanOfWanted(t, from + 1, till);
    }
  }

  /** So a table whose rows are all wanted comes back whole, whatever the limit of a page. */
  method AllRows<Row>(t: Table<Row>, limit: nat) returns (documents: seq<Row>)
    requires 0 < limit && forall row | row in t.rows :: t.wanted(row)
    ensures documents == t.rows
  {
    var serve := (n: nat, from: nat, top: Option<nat>) => OneRowPage(t, from);
    ghost var next := (n: nat, from: nat, top: Option<nat>) => OneRowOn(t, from);
    forall n: nat, from: nat, top: Option<nat> | from <= |t.rows| && top != Some(0)
      ensures Faithful(t, PositionOf, from, top, serve(n, from, top), next(n, from, top))
    {
      OneRowServiceIsFaithful(t, from, top);
    }
    documents := AllPages(t, PositionOf, serve, next, limit);
    ScanOfWanted(t, 0, |t.rows|);
  }
}
