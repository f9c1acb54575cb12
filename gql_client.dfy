/**
 * The GraphQL client: one query execution under a bounded retry policy, and the page walker
 * that follows a Relay-style connection (edges with cursors, `pageInfo.hasNextPage`) to its end.
 *
 * The remote API is a script of attempt outcomes held by the client object; each attempt takes
 * the next outcome, and an exhausted script raises on every further attempt.
 */
module GqlClient {
  import opened Wrappers
  import opened Errors
  import opened Json

  /** A pagination cursor; `None` is Python's `None`. */
  type Cursor = Option<string>

  datatype Edge = Edge(node: Json, cursor: string)

  /**
   * The page a successful execution returns, seen through the walker's reading of it:
   * `NoData` is a response whose data under its query name is missing or empty, `Malformed`
   * one the walker cannot read (no query name, no `pageInfo.hasNextPage`).
   */
  datatype Reply = NoData | Malformed | Page(edges: seq<Edge>, hasNextPage: bool)

  /** The outcome of one call into the transport. */
  datatype Attempt = Raises | Returns(reply: Reply)

  type Variables = map<string, Json>

  datatype Request = Request(query: string, variables: Variables)

  /** `stop_after_attempt(3)`. */
  const MaxAttempts: nat := 3

  function CursorValue(c: Cursor): (j: Json)
    ensures c.None? <==> j == Null
    ensures c.Some? ==> j == Str(c.value)
  {
    if c.Some? then Str(c.value) else Null
  }

  /** The accumulated edges of a walk. */
  datatype PaginationQueryResult = PaginationQueryResult(edges: seq<Edge>) {

    function GetNodes(): (nodes: seq<Json>)
      ensures |nodes| == |edges|
      ensures forall i :: 0 <= i < |edges| ==> nodes[i] == edges[i].node
    {
      seq(|edges|, i requires 0 <= i < |edges| => edges[i].node)
    }

    function GetLastCursor(): (c: Cursor)
      ensures c.None? <==> edges == []
      ensures edges != [] ==> c == Some(edges[|edges| - 1].cursor)
    {
      if edges != [] then Some(edges[|edges| - 1].cursor) else None
    }

    /** Some edge was collected: there are nodes, and a last cursor. */
    predicate HasResults()
      ensures HasResults() <==> GetNodes() != []
      ensures HasResults() <==> GetLastCursor().Some?
    {
      |edges| > 0
    }
  }

  /* ---------- the transport and the retry policy ---------- */

  /** The outcome of the i-th attempt from now. */
  function AttemptAt(script: seq<Attempt>, i: nat): Attempt {
    if i < |script| then script[i] else Raises
  }

  /** The script once n attempts have been made. */
  function Drop(script: seq<Attempt>, n: nat): seq<Attempt> {
    if n < |script| then script[n..] else []
  }

  /** Dropping n attempts shifts every later outcome n places forward. */
  lemma DropShifts(script: seq<Attempt>, n: nat, i: nat)
    ensures AttemptAt(Drop(script, n), i) == AttemptAt(script, n + i)
  {
  }

  function Repeat(req: Request, n: nat): (reqs: seq<Request>)
    ensures |reqs| == n && forall i :: 0 <= i < n ==> reqs[i] == req
  {
    if n == 0 then [] else Repeat(req, n - 1) + [req]
  }

  datatype Execution = Execution(result: Result<Reply, Error>, attempts: nat)

  /** `execute_graphql_query` under its retry decorator, with `tries` attempts still allowed. */
  function ExecuteWithRetry(script: seq<Attempt>, tries: nat): (x: Execution)
    requires tries >= 1
    decreases tries
  {
    match AttemptAt(script, 0)
    case Returns(reply) => Execution(Success(reply), 1)
    case Raises =>
      if tries == 1 then Execution(Failure(RetryError), 1)
      else
        var y := ExecuteWithRetry(Drop(script, 1), tries - 1);
        Execution(y.result, y.attempts + 1)
  }

  /**
   * The retry policy: attempts are made until one returns, at most `tries` of them; the reply is
   * that of the first returning attempt, and only when all of them raise does the execution fail.
   */
  lemma {:induction false} RetryPolicy(script: seq<Attempt>, tries: nat)
    requires tries >= 1
    ensures var x := ExecuteWithRetry(script, tries);
      1 <= x.attempts <= tries
      && (forall i :: 0 <= i < x.attempts - 1 ==> AttemptAt(script, i) == Raises)
      && (x.result.Success? <==> AttemptAt(script, x.attempts - 1).Returns?)
      && (x.result.Success? ==> x.result.value == AttemptAt(script, x.attempts - 1).reply)
      && (x.result.Failure? ==> x.attempts == tries && x.result.error == RetryError)
    decreases tries
  {
    if AttemptAt(script, 0) == Raises && tries > 1 {
      var y := ExecuteWithRetry(Drop(script, 1), tries - 1);
      RetryPolicy(Drop(script, 1), tries - 1);
      forall i | 0 <= i < y.attempts
        ensures AttemptAt(script, i) == Raises
      {
        if i > 0 {
          DropShifts(script, 1, i - 1);
        }
      }
      DropShifts(script, 1, y.attempts - 1);
    }
  }

  lemma {:induction false} AttemptsBounded(script: seq<Attempt>, tries: nat)
    requires tries >= 1
    ensures 1 <= ExecuteWithRetry(script, tries).attempts <= tries
    decreases tries
  {
    if AttemptAt(script, 0) == Raises && tries > 1 {
      AttemptsBounded(Drop(script, 1), tries - 1);
    }
  }

  /** A successful execution answers from the script, so it uses up at least one scripted attempt. */
  lemma ExecutionConsumes(script: seq<Attempt>, tries: nat)
    requires tries >= 1 && ExecuteWithRetry(script, tries).result.Success?
    ensures |Drop(script, ExecuteWithRetry(script, tries).attempts)| < |script|
  {
    RetryPolicy(script, tries);
  }

  /* ---------- the page walk ---------- */

  /** The walk's result, every request it sent (retries included) and the script it left. */
  datatype WalkOutcome = WalkOutcome(result: Result<PaginationQueryResult, Error>, requests: seq<Request>, remaining: seq<Attempt>)

  function Prepend(sent: seq<Request>, w: WalkOutcome): WalkOutcome {
    WalkOutcome(w.result, sent + w.requests, w.remaining)
  }

  /**
   * How a walk ends on an execution that leaves no next page to ask for: a failed execution and
   * a malformed page raise GraphQLQueryException, so does a response without data, and a last
   * page completes the collected edges.
   */
  function StopResult(r: Result<Reply, Error>, acc: seq<Edge>): Result<PaginationQueryResult, Error> {
    if r.Failure? || r.value.Malformed? then Failure(GraphQLQueryException(ExecutionFailed))
    else if r.value.NoData? then Failure(GraphQLQueryException(NoDataFound))
    else Success(PaginationQueryResult(acc + r.value.edges))
  }

  /**
   * `paginate_gql_query` from a state where `acc` holds the edges collected so far and `last` the
   * cursor of the last of them (kept from an earlier page when later pages are empty).
   */
  function WalkFrom(script: seq<Attempt>, query: string, vars: Variables, acc: seq<Edge>, last: Cursor): WalkOutcome
    decreases |script|
  {
    var x := ExecuteWithRetry(script, MaxAttempts);
    var sent := Repeat(Request(query, vars), x.attempts);
    var rest := Drop(script, x.attempts);
    if x.result.Failure? || !x.result.value.Page? || !x.result.value.hasNextPage then
      WalkOutcome(StopResult(x.result, acc), sent, rest)
    else
      var edges := x.result.value.edges;
      var last' := if edges != [] then Some(edges[|edges| - 1].cursor) else last;
      ExecutionConsumes(script, MaxAttempts);
      Prepend(sent, WalkFrom(rest, query, vars["after" := CursorValue(last')], acc + edges, last'))
  }

  lemma PrependTwice(a: seq<Request>, b: seq<Request>, w: WalkOutcome)
    ensures Prepend(a, Prepend(b, w)) == Prepend(a + b, w)
  {
    assert a + (b + w.requests) == a + b + w.requests;
  }

  function Walk(script: seq<Attempt>, query: string, vars: Variables): WalkOutcome {
    WalkFrom(script, query, vars, [], None)
  }

  /** One step of the walk: the first execution, then either the end of the walk or the walk from the next page. */
  lemma WalkStep(script: seq<Attempt>, query: string, vars: Variables, acc: seq<Edge>, last: Cursor)
    ensures var x := ExecuteWithRetry(script, MaxAttempts);
      var w := WalkFrom(script, query, vars, acc, last);
      var sent := Repeat(Request(query, vars), x.attempts);
      var rest := Drop(script, x.attempts);
      (x.result.Success? && x.result.value.Page? && x.result.value.hasNextPage ==>
        var edges := x.result.value.edges;
        var last' := if edges != [] then Some(edges[|edges| - 1].cursor) else last;
        |rest| < |script|
        && w == Prepend(sent, WalkFrom(rest, query, vars["after" := CursorValue(last')], acc + edges, last')))
      && (!(x.result.Success? && x.result.value.Page? && x.result.value.hasNextPage) ==>
        w == WalkOutcome(StopResult(x.result, acc), sent, rest))
  {
    if ExecuteWithRetry(script, MaxAttempts).result.Success? {
      ExecutionConsumes(script, MaxAttempts);
    }
  }

  /** The requests a walk sends, and the script it leaves, do not depend on the edges collected so far. */
  lemma {:induction false} RequestsIgnoreAccumulator(script: seq<Attempt>, query: string, vars: Variables, acc: seq<Edge>, acc2: seq<Edge>, last: Cursor)
    ensures WalkFrom(script, query, vars, acc, last).requests == WalkFrom(script, query, vars, acc2, last).requests
    ensures WalkFrom(script, query, vars, acc, last).remaining == WalkFrom(script, query, vars, acc2, last).remaining
    decreases |script|
  {
    var x := ExecuteWithRetry(script, MaxAttempts);
    WalkStep(script, query, vars, acc, last);
    WalkStep(script, query, vars, acc2, last);
    if x.result.Success? && x.result.value.Page? && x.result.value.hasNextPage {
      var edges := x.result.value.edges;
      var last' := if edges != [] then Some(edges[|edges| - 1].cursor) else last;
      RequestsIgnoreAccumulator(Drop(script, x.attempts), query, vars["after" := CursorValue(last')], acc + edges, acc2 + edges, last');
    }
  }

  /** A result with `acc` in front of its edges. */
  function Shift(acc: seq<Edge>, r: Result<PaginationQueryResult, Error>): Result<PaginationQueryResult, Error> {
    if r.Failure? then r else Success(PaginationQueryResult(acc + r.value.edges))
  }

  lemma ShiftTwice(a: seq<Edge>, b: seq<Edge>, r: Result<PaginationQueryResult, Error>)
    ensures Shift(a + b, r) == Shift(a, Shift(b, r))
  {
    if r.Success? {
      assert a + b + r.value.edges == a + (b + r.value.edges);
    }
  }

  lemma StopShifts(r: Result<Reply, Error>, acc: seq<Edge>)
    ensures StopResult(r, acc) == Shift(acc, StopResult(r, []))
  {
    if r.Success? && r.value.Page? {
      assert [] + r.value.edges == r.value.edges;
    }
  }

  /**
   * The accumulator only prefixes the result: a walk succeeds or fails, and collects the same
   * edges, wherever it starts.
   */
  lemma {:induction false} WalkAccumulates(script: seq<Attempt>, query: string, vars: Variables, acc: seq<Edge>, last: Cursor)
    ensures WalkFrom(script, query, vars, acc, last).result == Shift(acc, WalkFrom(script, query, vars, [], last).result)
    decreases |script|
  {
    var x := ExecuteWithRetry(script, MaxAttempts);
    WalkStep(script, query, vars, acc, last);
    WalkStep(script, query, vars, [], last);
    if x.result.Success? && x.result.value.Page? && x.result.value.hasNextPage {
      var edges := x.result.value.edges;
      var last' := if edges != [] then Some(edges[|edges| - 1].cursor) else last;
      var rest := Drop(script, x.attempts);
      var vars' := vars["after" := CursorValue(last')];
      assert [] + edges == edges;
      WalkAccumulates(rest, query, vars', acc + edges, last');
      WalkAccumulates(rest, query, vars', edges, last');
      ShiftTwice(acc, edges, WalkFrom(rest, query, vars', [], last').result);
    } else {
      StopShifts(x.result, acc);
    }
  }

  /**
   * Every request of a walk is the walk's query with the caller's variables, except that `after`
   * is overwritten on every request after the first; the walk sends at least one request.
   */
  lemma {:induction false} WalkRequests(script: seq<Attempt>, query: string, vars: Variables, acc: seq<Edge>, last: Cursor)
    ensures var w := WalkFrom(script, query, vars, acc, last);
      |w.requests| >= 1 && w.requests[0] == Request(query, vars) && KeepsVariables(w.requests, query, vars)
    decreases |script|
  {
    var x := ExecuteWithRetry(script, MaxAttempts);
    AttemptsBounded(script, MaxAttempts);
    WalkStep(script, query, vars, acc, last);
    var sent := Repeat(Request(query, vars), x.attempts);
    assert KeepsVariables(sent, query, vars);
    if x.result.Success? && x.result.value.Page? && x.result.value.hasNextPage {
      var edges := x.result.value.edges;
      var last' := if edges != [] then Some(edges[|edges| - 1].cursor) else last;
      var vars' := vars["after" := CursorValue(last')];
      var w' := WalkFrom(Drop(script, x.attempts), query, vars', acc + edges, last');
      WalkRequests(Drop(script, x.attempts), query, vars', acc + edges, last');
      SetAfterKeepsRest(vars, CursorValue(last'));
      KeepsVariablesConcat(sent, w'.requests, query, vars, vars');
    }
  }

  lemma SetAfterKeepsRest(vars: Variables, v: Json)
    ensures vars["after" := v] - {"after"} == vars - {"after"}
  {
  }

  /** Every request is for the query, with the given variables apart from `after`. */
  predicate KeepsVariables(reqs: seq<Request>, query: string, vars: Variables) {
    forall i :: 0 <= i < |reqs| ==> reqs[i].query == query && reqs[i].variables - {"after"} == vars - {"after"}
  }

  lemma KeepsVariablesConcat(a: seq<Request>, b: seq<Request>, query: string, vars: Variables, vars': Variables)
    requires KeepsVariables(a, query, vars) && KeepsVariables(b, query, vars')
    requires vars' - {"after"} == vars - {"after"}
    ensures KeepsVariables(a + b, query, vars)
  {
    forall i | 0 <= i < |a + b|
      ensures (a + b)[i].query == query && (a + b)[i].variables - {"after"} == vars - {"after"}
    {
      if i >= |a| {
        assert (a + b)[i] == b[i - |a|];
      }
    }
  }

  /**
   * The walk stops at the first page without a next page and succeeds there with every edge of
   * every page, in order; a failed execution, a page without data or a malformed page ends it
   * with GraphQLQueryException.
   */
  lemma SinglePage(script: seq<Attempt>, query: string, vars: Variables, edges: seq<Edge>)
    requires |script| >= 1 && script[0] == Returns(Page(edges, false))
    ensures Walk(script, query, vars) == WalkOutcome(Success(PaginationQueryResult(edges)), [Request(query, vars)], script[1..])
  {
    assert [] + edges == edges;
    assert Repeat(Request(query, vars), 1) == [Request(query, vars)];
  }

  /** Two pages: the second request resumes after the last cursor of the first page, and the edges are concatenated. */
  lemma TwoPages(query: string, vars: Variables, first: seq<Edge>, second: seq<Edge>, rest: seq<Attempt>)
    requires first != []
    ensures var w := Walk([Returns(Page(first, true)), Returns(Page(second, false))] + rest, query, vars);
      w.result == Success(PaginationQueryResult(first + second))
      && w.requests == [Request(query, vars), Request(query, vars["after" := Str(first[|first| - 1].cursor)])]
      && w.remaining == rest
  {
    var script := [Returns(Page(first, true)), Returns(Page(second, false))] + rest;
    var last := Some(first[|first| - 1].cursor);
    var vars' := vars["after" := CursorValue(last)];
    var script' := Drop(script, 1);
    assert script' == [Returns(Page(second, false))] + rest;
    assert ExecuteWithRetry(script, MaxAttempts) == Execution(Success(Page(first, true)), 1);
    assert ExecuteWithRetry(script', MaxAttempts) == Execution(Success(Page(second, false)), 1);
    assert Drop(script', 1) == rest;
    assert Repeat(Request(query, vars), 1) == [Request(query, vars)];
    assert Repeat(Request(query, vars'), 1) == [Request(query, vars')];
    assert [] + first == first;
    WalkStep(script, query, vars, [], None);
    WalkStep(script', query, vars', first, last);
  }

  /** Retries: two raising attempts followed by a last page still succeed, after three requests. */
  lemma RetriedPage(query: string, vars: Variables, edges: seq<Edge>)
    ensures var w := Walk([Raises, Raises, Returns(Page(edges, false))], query, vars);
      w.result == Success(PaginationQueryResult(edges)) && |w.requests| == 3
  {
    var script := [Raises, Raises, Returns(Page(edges, false))];
    assert AttemptAt(script, 0) == Raises && AttemptAt(Drop(script, 1), 0) == Raises;
    assert Drop(Drop(script, 1), 1) == [Returns(Page(edges, false))];
    assert [] + edges == edges;
  }

  /** Three raising attempts in a row end the walk with GraphQLQueryException, whatever came before. */
  lemma ThreeFailuresAbort(script: seq<Attempt>, query: string, vars: Variables)
    requires forall i :: 0 <= i < MaxAttempts ==> AttemptAt(script, i) == Raises
    ensures var w := Walk(script, query, vars);
      w.result == Failure(GraphQLQueryException(ExecutionFailed)) && w.requests == Repeat(Request(query, vars), MaxAttempts)
  {
    RetryPolicy(script, MaxAttempts);
  }

  /** A response without data ends the walk with GraphQLQueryException, without retrying. */
  lemma NoDataAborts(script: seq<Attempt>, query: string, vars: Variables)
    requires |script| >= 1 && script[0] == Returns(NoData)
    ensures Walk(script, query, vars).result == Failure(GraphQLQueryException(NoDataFound))
    ensures |Walk(script, query, vars).requests| == 1
  {
  }

  /**
   * As written, `after` takes the running last cursor, which is `None` until some page has had an
   * edge: a walk started after a cursor whose first page is empty but has a next page asks for the
   * next page with `after` set to null, that is from the start of the connection again.
   */
  lemma EmptyFirstPageResetsAfter(script: seq<Attempt>, query: string, vars: Variables)
    requires |script| >= 2 && script[0] == Returns(Page([], true)) && script[1].Returns?
    ensures var w := Walk(script, query, vars);
      |w.requests| >= 2 && w.requests[1] == Request(query, vars["after" := Null])
  {
    assert ExecuteWithRetry(script, MaxAttempts) == Execution(Success(Page([], true)), 1);
    assert Repeat(Request(query, vars), 1) == [Request(query, vars)];
    WalkStep(script, query, vars, [], None);
    WalkRequests(Drop(script, 1), query, vars["after" := Null], [], None);
  }

  /** A script of pages answering at the first attempt, each but the last with a next page. */
  function PagesScript(pages: seq<seq<Edge>>): (script: seq<Attempt>)
    ensures |script| == |pages|
    ensures forall i :: 0 <= i < |pages| ==> script[i] == Returns(Page(pages[i], i < |pages| - 1))
  {
    if pages == [] then []
    else if |pages| == 1 then [Returns(Page(pages[0], false))]
    else [Returns(Page(pages[0], true))] + PagesScript(pages[1..])
  }

  /** The edges of the pages, in page order. */
  function Concat(pages: seq<seq<Edge>>): seq<Edge> {
    if pages == [] then [] else pages[0] + Concat(pages[1..])
  }

  /** The cursor of the last of `edges`, or `last` when there is none. */
  function LastOf(last: Cursor, edges: seq<Edge>): Cursor {
    if edges != [] then Some(edges[|edges| - 1].cursor) else last
  }

  lemma LastOfConcat(last: Cursor, a: seq<Edge>, b: seq<Edge>)
    ensures LastOf(last, a + b) == LastOf(LastOf(last, a), b)
  {
    if b != [] {
      assert (a + b)[|a + b| - 1] == b[|b| - 1];
    }
  }

  lemma ConcatFront(pages: seq<seq<Edge>>, i: nat)
    requires 1 <= i <= |pages|
    ensures Concat(pages[..i]) == pages[0] + Concat(pages[1..][..i - 1])
  {
    assert pages[..i][0] == pages[0];
    assert pages[..i][1..] == pages[1..][..i - 1];
  }

  /**
   * The walk over any number k >= 1 of pages, each answered at the first attempt: it sends k
   * requests and stops at the first page without a next page, with the edges of every page in
   * order; the first request carries the caller's variables and the i-th one `after` set to the
   * cursor of the last edge seen so far, so that an empty page leaves `after` as it was.
   */
  lemma {:induction false} WalkPagesFrom(pages: seq<seq<Edge>>, rest: seq<Attempt>, query: string, vars: Variables, acc: seq<Edge>, last: Cursor)
    requires |pages| >= 1
    ensures var w := WalkFrom(PagesScript(pages) + rest, query, vars, acc, last);
      w.result == Success(PaginationQueryResult(acc + Concat(pages)))
      && |w.requests| == |pages| && w.requests[0] == Request(query, vars)
      && (forall i :: 0 < i < |pages| ==>
            w.requests[i] == Request(query, vars["after" := CursorValue(LastOf(last, Concat(pages[..i])))]))
      && w.remaining == rest
    decreases |pages|
  {
    if |pages| == 1 {
      FirstPage(pages, rest, query, vars, acc, last);
      assert pages[1..] == [];
      assert Concat(pages) == pages[0] + [] == pages[0];
    } else {
      var ps := pages[1..];
      var last' := LastOf(last, pages[0]);
      var vars' := vars["after" := CursorValue(last')];
      FirstPage(pages, rest, query, vars, acc, last);
      WalkPagesFrom(ps, rest, query, vars', acc + pages[0], last');
      var w' := WalkFrom(PagesScript(ps) + rest, query, vars', acc + pages[0], last');
      assert acc + pages[0] + Concat(ps) == acc + Concat(pages);
      NextRequests(pages, query, vars, last, w'.requests);
    }
  }

  /** The first page of a page script is answered at once, and the walk goes on to the rest of the pages. */
  lemma FirstPage(pages: seq<seq<Edge>>, rest: seq<Attempt>, query: string, vars: Variables, acc: seq<Edge>, last: Cursor)
    requires |pages| >= 1
    ensures var w := WalkFrom(PagesScript(pages) + rest, query, vars, acc, last);
      (|pages| == 1 ==> w == WalkOutcome(Success(PaginationQueryResult(acc + pages[0])), [Request(query, vars)], rest))
      && (|pages| > 1 ==> w == Prepend([Request(query, vars)],
            WalkFrom(PagesScript(pages[1..]) + rest, query, vars["after" := CursorValue(LastOf(last, pages[0]))], acc + pages[0], LastOf(last, pages[0]))))
  {
    var script := PagesScript(pages) + rest;
    assert script[0] == Returns(Page(pages[0], |pages| > 1));
    assert ExecuteWithRetry(script, MaxAttempts) == Execution(Success(Page(pages[0], |pages| > 1)), 1);
    assert Repeat(Request(query, vars), 1) == [Request(query, vars)];
    assert Drop(script, 1) == PagesScript(pages[1..]) + rest;
    WalkStep(script, query, vars, acc, last);
  }

  /** The requests after a first page are those of the walk over the remaining pages. */
  lemma NextRequests(pages: seq<seq<Edge>>, query: string, vars: Variables, last: Cursor, reqs: seq<Request>)
    requires |pages| >= 2 && |reqs| == |pages| - 1
    requires var vars' := vars["after" := CursorValue(LastOf(last, pages[0]))];
      reqs[0] == Request(query, vars')
      && forall j :: 0 < j < |pages| - 1 ==>
           reqs[j] == Request(query, vars'["after" := CursorValue(LastOf(LastOf(last, pages[0]), Concat(pages[1..][..j])))])
    ensures forall i :: 0 < i < |pages| ==>
      ([Request(query, vars)] + reqs)[i] == Request(query, vars["after" := CursorValue(LastOf(last, Concat(pages[..i])))])
  {
    var p := pages[0];
    var ps := pages[1..];
    var last' := LastOf(last, p);
    forall i | 0 < i < |pages|
      ensures ([Request(query, vars)] + reqs)[i] == Request(query, vars["after" := CursorValue(LastOf(last, Concat(pages[..i])))])
    {
      ConcatFront(pages, i);
      assert ([Request(query, vars)] + reqs)[i] == reqs[i - 1];
      if i == 1 {
        assert Concat(ps[..0]) == [];
        assert p + [] == p;
      } else {
        LastOfConcat(last, p, Concat(ps[..i - 1]));
        assert vars["after" := CursorValue(last')]["after" := CursorValue(LastOf(last', Concat(ps[..i - 1])))]
          == vars["after" := CursorValue(LastOf(last', Concat(ps[..i - 1])))];
      }
    }
  }

  /**
   * `paginate_gql_query` over k >= 1 pages: the result is every page's edges concatenated in
   * order, the walk sends exactly k requests, the first with the caller's variables and the
   * i-th with `after` the cursor of the last edge of the pages before it (null while there has
   * been none), and no later attempt is consumed. An empty page after a non-empty one leaves
   * `after` unchanged.
   */
  lemma WalkPages(pages: seq<seq<Edge>>, rest: seq<Attempt>, query: string, vars: Variables)
    requires |pages| >= 1
    ensures var w := Walk(PagesScript(pages) + rest, query, vars);
      w.result == Success(PaginationQueryResult(Concat(pages)))
      && |w.requests| == |pages| && w.requests[0] == Request(query, vars)
      && (forall i :: 0 < i < |pages| ==>
            w.requests[i] == Request(query, vars["after" := CursorValue(PaginationQueryResult(Concat(pages[..i])).GetLastCursor())]))
      && (forall i :: 0 < i < |pages| - 1 && pages[i] == [] ==> w.requests[i + 1] == w.requests[i])
      && w.remaining == rest
  {
    WalkPagesFrom(pages, rest, query, vars, [], None);
    assert [] + Concat(pages) == Concat(pages);
    forall i | 0 < i < |pages| - 1 && pages[i] == []
      ensures LastOf(None, Concat(pages[..i + 1])) == LastOf(None, Concat(pages[..i]))
    {
      ConcatSnoc(pages, i);
      assert Concat(pages[..i]) + [] == Concat(pages[..i]);
    }
  }

  lemma {:induction false} ConcatSnoc(pages: seq<seq<Edge>>, i: nat)
    requires i < |pages|
    ensures Concat(pages[..i + 1]) == Concat(pages[..i]) + pages[i]
    decreases i
  {
    if i > 0 {
      ConcatFront(pages, i + 1);
      ConcatFront(pages, i);
      ConcatSnoc(pages[1..], i - 1);
      assert pages[1..][i - 1] == pages[i];
    } else {
      assert pages[..1][1..] == [];
    }
  }

  /**
   * A GraphQL endpoint client; `script` stands for the remote API's future answers and `log`
   * for the requests sent so far.
   */
  class GraphQLClient {
    var script: seq<Attempt>
    var log: seq<Request>

    constructor(script: seq<Attempt>)
      ensures this.script == script && log == []
    {
      this.script := script;
      log := [];
    }

    /** One call into the transport. */
    method Send(query: string, variables: Variables) returns (a: Attempt)
      modifies this
      ensures a == AttemptAt(old(script), 0)
      ensures script == Drop(old(script), 1) && log == old(log) + [Request(query, variables)]
    {
      a := if script == [] then Raises else script[0];
      script := if script == [] then [] else script[1..];
      log := log + [Request(query, variables)];
    }

    method ExecuteGraphqlQuery(query: string, variables: Variables) returns (r: Result<Reply, Error>)
      modifies this
      ensures var x := ExecuteWithRetry(old(script), MaxAttempts);
        r == x.result && script == Drop(old(script), x.attempts)
        && log == old(log) + Repeat(Request(query, variables), x.attempts)
    {
      var tries: nat := 0;
      while true
        invariant tries < MaxAttempts
        invariant script == Drop(old(script), tries)
        invariant log == old(log) + Repeat(Request(query, variables), tries)
        invariant var x := ExecuteWithRetry(script, MaxAttempts - tries);
          ExecuteWithRetry(old(script), MaxAttempts) == Execution(x.result, x.attempts + tries)
        decreases MaxAttempts - tries
      {
        var a := Send(query, variables);
        assert Repeat(Request(query, variables), tries) + [Request(query, variables)] == Repeat(Request(query, variables), tries + 1);
        tries := tries + 1;
        if a.Returns? {
          return Success(a.reply);
        }
        if tries == MaxAttempts {
          return Failure(RetryError);
        }
      }
    }

    /**
     * One turn of the walker's loop: execute the query, then either end the walk with `r`, or
     * extend the collected edges and the last cursor and set `after` for the next page.
     */
    method NextPage(query: string, vars: Variables, acc: seq<Edge>, last: Cursor)
      returns (done: bool, r: Result<PaginationQueryResult, Error>, acc': seq<Edge>, last': Cursor, vars': Variables, ghost sent: seq<Request>)
      modifies this
      ensures log == old(log) + sent
      ensures done ==> WalkFrom(old(script), query, vars, acc, last) == WalkOutcome(r, sent, script)
      ensures !done ==> |script| < |old(script)|
      ensures !done ==> WalkFrom(old(script), query, vars, acc, last) == Prepend(sent, WalkFrom(script, query, vars', acc', last'))
    {
      WalkStep(script, query, vars, acc, last);
      sent := Repeat(Request(query, vars), ExecuteWithRetry(script, MaxAttempts).attempts);
      var x := ExecuteGraphqlQuery(query, vars);
      done, acc', last', vars' := true, acc, last, vars;
      if x.Failure? {
        r := Failure(GraphQLQueryException(ExecutionFailed));
        return;
      }
      match x.value
      case NoData =>
        r := Failure(GraphQLQueryException(NoDataFound));
      case Malformed =>
        r := Failure(GraphQLQueryException(ExecutionFailed));
      case Page(edges, more) =>
        acc' := acc + edges;
        if edges != [] {
          last' := Some(edges[|edges| - 1].cursor);
        }
        r := Success(PaginationQueryResult(acc'));
        if more {
          done := false;
          vars' := vars["after" := CursorValue(last')];
        }
    }

    method PaginateGqlQuery(query: string, variables: Variables) returns (r: Result<PaginationQueryResult, Error>)
      modifies this
      ensures var w := Walk(old(script), query, variables);
        r == w.result && log == old(log) + w.requests && script == w.remaining
    {
      var allResults: seq<Edge> := [];
      var lastCursor: Cursor := None;
      var vars := variables;
      ghost var sent: seq<Request> := [];
      ghost var rem := WalkFrom(script, query, vars, allResults, lastCursor);
      ghost var total := rem;
      while true
        invariant log == old(log) + sent
        invariant total == Prepend(sent, rem)
        invariant rem == WalkFrom(script, query, vars, allResults, lastCursor)
        decreases |script|
      {
        var done, allResults', lastCursor', vars';
        ghost var step;
        done, r, allResults', lastCursor', vars', step := NextPage(query, vars, allResults, lastCursor);
        if done {
          LogExtends(old(log), sent, step, log);
          return;
        }
        ghost var rem' := WalkFrom(script, query, vars', allResults', lastCursor');
        PrependTwice(sent, step, rem');
        LogExtends(old(log), sent, step, log);
        sent := sent + step;
        rem := rem';
        allResults, lastCursor, vars := allResults', lastCursor', vars';
      }
    }
  }

  /** Associativity of log extension, stated once so that loops need not re-derive it. */
  lemma LogExtends(a: seq<Request>, b: seq<Request>, c: seq<Request>, d: seq<Request>)
    requires d == a + b + c
    ensures d == a + (b + c)
  {
  }
}
