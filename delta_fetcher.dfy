/**
 * The delta reconciler: walks the change feed (each node a `mutationType` and a `dbId`) and
 * folds it into the three sets of ids added, updated and deleted since the cursor, a deletion
 * cancelling any addition or update of the same id.
 */
module DeltaFetching {
  import opened Wrappers
  import opened Errors
  import opened Json
  import opened Sets
  import opened GqlClient

  const Added := "ADDED"
  const Updated := "UPDATED"
  const Deleted := "DELETED"

  datatype DeltasResult = DeltasResult(additions: set<Json>, updates: set<Json>, deletions: set<Json>, lastCursor: Cursor) {

    /** Some id was added, updated or deleted. */
    predicate HasChanges()
      ensures HasChanges() <==> HasAdditions() || HasUpdates() || HasDeletions()
    {
      additions != {} || updates != {} || deletions != {}
    }

    predicate HasAdditions()
      ensures HasAdditions() <==> additions != {}
    {
      |additions| > 0
    }

    predicate HasUpdates()
      ensures HasUpdates() <==> updates != {}
    {
      |updates| > 0
    }

    predicate HasDeletions()
      ensures HasDeletions() <==> deletions != {}
    {
      |deletions| > 0
    }

    method GetAdditions() returns (ids: seq<Json>)
      ensures |ids| == |additions| && Distinct(ids) && forall x :: x in additions <==> x in ids
    {
      ids := ListOf(additions);
    }

    method GetUpdates() returns (ids: seq<Json>)
      ensures |ids| == |updates| && Distinct(ids) && forall x :: x in updates <==> x in ids
    {
      ids := ListOf(updates);
    }

    method GetDeletions() returns (ids: seq<Json>)
      ensures |ids| == |deletions| && Distinct(ids) && forall x :: x in deletions <==> x in ids
    {
      ids := ListOf(deletions);
    }
  }

  /** The node's `mutationType` is the string tag. */
  predicate TaggedAs(node: Json, tag: string) {
    node.Obj? && Get(node.fields, "mutationType") == Some(Str(tag))
  }

  /** One of the three tags the reconciler acts on; any other `mutationType` is skipped. */
  predicate Tracked(node: Json) {
    TaggedAs(node, Deleted) || TaggedAs(node, Updated) || TaggedAs(node, Added)
  }

  /** `node.get('dbId')`: `None` when the node has no `dbId`. */
  function DbIdOf(node: Json): Json
    requires node.Obj?
  {
    match Get(node.fields, "dbId")
    case Some(id) => id
    case None => Null
  }

  /**
   * What goes wrong on a node: `.get` on a node that is not a dict, or a tracked node whose id
   * is a dict or a list and so cannot be added to a set.
   */
  function EdgeFault(node: Json): Option<Error> {
    if !node.Obj? then Some(AttributeError)
    else if Tracked(node) && !IsScalar(DbIdOf(node)) then Some(TypeError)
    else None
  }

  /** The position of the first faulty node, or |edges| when every node is fine. */
  function FirstFault(edges: seq<Edge>): (k: nat)
    ensures k <= |edges|
    ensures forall j :: 0 <= j < k ==> EdgeFault(edges[j].node).None?
    ensures k < |edges| ==> EdgeFault(edges[k].node).Some?
  {
    if edges == [] then 0
    else if EdgeFault(edges[0].node).Some? then 0
    else 1 + FirstFault(edges[1..])
  }

  /** The ids of the nodes tagged `tag`. */
  function IdsTagged(edges: seq<Edge>, tag: string): set<Json>
    requires forall j :: 0 <= j < |edges| ==> edges[j].node.Obj?
  {
    set j | 0 <= j < |edges| && TaggedAs(edges[j].node, tag) :: DbIdOf(edges[j].node)
  }

  /** `_extract_deltas` as a function of the walk's result. */
  function Reconcile(result: PaginationQueryResult): Result<DeltasResult, Error> {
    var edges := result.edges;
    var k := FirstFault(edges);
    if k < |edges| then Failure(EdgeFault(edges[k].node).value)
    else
      var deletions := IdsTagged(edges, Deleted);
      Success(DeltasResult(IdsTagged(edges, Added) - deletions, IdsTagged(edges, Updated) - deletions, deletions, result.GetLastCursor()))
  }

  lemma IdsTaggedSnoc(edges: seq<Edge>, e: Edge, tag: string)
    requires forall j :: 0 <= j < |edges| ==> edges[j].node.Obj?
    requires e.node.Obj?
    ensures IdsTagged(edges + [e], tag) == IdsTagged(edges, tag) + (if TaggedAs(e.node, tag) then {DbIdOf(e.node)} else {})
  {
    var es := edges + [e];
    forall x | x in IdsTagged(es, tag)
      ensures x in IdsTagged(edges, tag) + (if TaggedAs(e.node, tag) then {DbIdOf(e.node)} else {})
    {
      var j :| 0 <= j < |es| && TaggedAs(es[j].node, tag) && DbIdOf(es[j].node) == x;
      if j < |edges| {
        assert es[j] == edges[j];
      }
    }
    forall x | x in IdsTagged(edges, tag)
      ensures x in IdsTagged(es, tag)
    {
      var j :| 0 <= j < |edges| && TaggedAs(edges[j].node, tag) && DbIdOf(edges[j].node) == x;
      assert es[j] == edges[j];
    }
    if TaggedAs(e.node, tag) {
      assert es[|edges|] == e;
    }
  }

  /** Taking one more edge into account adds its id to the set of its tag, if it has one of the three. */
  lemma TallySnoc(edges: seq<Edge>, i: nat)
    requires i < |edges| && forall j :: 0 <= j <= i ==> edges[j].node.Obj?
    ensures forall tag ::
      IdsTagged(edges[..i + 1], tag) == IdsTagged(edges[..i], tag) + (if TaggedAs(edges[i].node, tag) then {DbIdOf(edges[i].node)} else {})
  {
    assert edges[..i + 1] == edges[..i] + [edges[i]];
    forall tag {
      IdsTaggedSnoc(edges[..i], edges[i], tag);
    }
  }

  /**
   * One turn of `_extract_deltas`'s loop: the node's fault, or the three sets with its id added
   * to the set of its tag.
   */
  method TallyEdge(edges: seq<Edge>, i: nat, additions: set<Json>, updates: set<Json>, deletions: set<Json>)
    returns (fault: Option<Error>, additions': set<Json>, updates': set<Json>, deletions': set<Json>)
    requires i < |edges| && forall j :: 0 <= j < i ==> EdgeFault(edges[j].node).None?
    requires forall j :: 0 <= j < |edges[..i]| ==> edges[..i][j].node.Obj?
    requires additions == IdsTagged(edges[..i], Added) && updates == IdsTagged(edges[..i], Updated)
    requires deletions == IdsTagged(edges[..i], Deleted)
    ensures fault == EdgeFault(edges[i].node)
    ensures fault.None? ==>
      additions' == IdsTagged(edges[..i + 1], Added) && updates' == IdsTagged(edges[..i + 1], Updated)
      && deletions' == IdsTagged(edges[..i + 1], Deleted)
  {
    additions', updates', deletions' := additions, updates, deletions;
    var node := edges[i].node;
    if !node.Obj? {
      return Some(AttributeError), additions', updates', deletions';
    }
    var mutationType := Get(node.fields, "mutationType");
    var dbId := DbIdOf(node);
    if Tracked(node) && !IsScalar(dbId) {
      return Some(TypeError), additions', updates', deletions';
    }
    fault := None;
    TallySnoc(edges, i);
    if mutationType == Some(Str(Deleted)) {
      deletions' := deletions + {dbId};
    } else if mutationType == Some(Str(Updated)) {
      updates' := updates + {dbId};
    } else if mutationType == Some(Str(Added)) {
      additions' := additions + {dbId};
    }
  }

  method ExtractDeltas(result: PaginationQueryResult) returns (r: Result<DeltasResult, Error>)
    ensures r == Reconcile(result)
  {
    var additions: set<Json> := {};
    var updates: set<Json> := {};
    var deletions: set<Json> := {};
    if !result.HasResults() {
      assert result == PaginationQueryResult([]);
      EmptyWalkYieldsNoChanges();
      return Success(DeltasResult(additions, updates, deletions, result.GetLastCursor()));
    }
    var edges := result.edges;
    var i := 0;
    while i < |edges|
      invariant 0 <= i <= |edges|
      invariant forall j :: 0 <= j < i ==> EdgeFault(edges[j].node).None?
      invariant additions == IdsTagged(edges[..i], Added)
      invariant updates == IdsTagged(edges[..i], Updated)
      invariant deletions == IdsTagged(edges[..i], Deleted)
    {
      var fault;
      fault, additions, updates, deletions := TallyEdge(edges, i, additions, updates, deletions);
      if fault.Some? {
        assert FirstFault(edges) == i;
        return Failure(fault.value);
      }
      i := i + 1;
    }
    assert edges[..i] == edges;
    assert FirstFault(edges) == |edges|;
    updates := updates - deletions;
    additions := additions - deletions;
    return Success(DeltasResult(additions, updates, deletions, result.GetLastCursor()));
  }

  /**
   * Membership: an id is deleted when some node deletes it; it is added (updated) exactly when
   * some node adds (updates) it and no node deletes it. A deletion therefore always wins.
   */
  lemma ReconcileMembership(result: PaginationQueryResult, x: Json)
    requires Reconcile(result).Success?
    ensures var d := Reconcile(result).value;
      var es := result.edges;
      (x in d.deletions <==> exists j :: 0 <= j < |es| && TaggedAs(es[j].node, Deleted) && DbIdOf(es[j].node) == x)
      && (x in d.additions <==> (exists j :: 0 <= j < |es| && TaggedAs(es[j].node, Added) && DbIdOf(es[j].node) == x)
                                && !(exists j :: 0 <= j < |es| && TaggedAs(es[j].node, Deleted) && DbIdOf(es[j].node) == x))
      && (x in d.updates <==> (exists j :: 0 <= j < |es| && TaggedAs(es[j].node, Updated) && DbIdOf(es[j].node) == x)
                               && !(exists j :: 0 <= j < |es| && TaggedAs(es[j].node, Deleted) && DbIdOf(es[j].node) == x))
  {
  }

  /** A deleted id is never reported as added or updated. */
  lemma DeletionWins(result: PaginationQueryResult)
    requires Reconcile(result).Success?
    ensures Reconcile(result).value.additions !! Reconcile(result).value.deletions
    ensures Reconcile(result).value.updates !! Reconcile(result).value.deletions
  {
  }

  /** Every reported id is a scalar, and the cursor is that of the last edge of the walk. */
  lemma ReconciledIdsAreScalars(result: PaginationQueryResult)
    requires Reconcile(result).Success?
    ensures var d := Reconcile(result).value;
      forall x :: x in d.additions + d.updates + d.deletions ==> IsScalar(x)
    ensures Reconcile(result).value.lastCursor == result.GetLastCursor()
  {
  }

  /** The result reports changes exactly when some node carries one of the three tags. */
  lemma HasChangesIffTracked(result: PaginationQueryResult)
    requires Reconcile(result).Success?
    ensures Reconcile(result).value.HasChanges() <==> exists j :: 0 <= j < |result.edges| && Tracked(result.edges[j].node)
  {
    var es := result.edges;
    var d := Reconcile(result).value;
    if j :| 0 <= j < |es| && Tracked(es[j].node) {
      var x := DbIdOf(es[j].node);
      assert x in IdsTagged(es, Deleted) || x in IdsTagged(es, Updated) || x in IdsTagged(es, Added);
    }
  }

  /** `_extract_deltas` fails exactly when some node is faulty, and then with the first fault. */
  lemma ReconcileFailure(result: PaginationQueryResult)
    ensures Reconcile(result).Failure? <==> exists j :: 0 <= j < |result.edges| && EdgeFault(result.edges[j].node).Some?
    ensures Reconcile(result).Failure? ==> Reconcile(result).error in {AttributeError, TypeError}
  {
  }

  /** An empty walk yields no change and no cursor. */
  lemma EmptyWalkYieldsNoChanges()
    ensures Reconcile(PaginationQueryResult([])) == Success(DeltasResult({}, {}, {}, None))
  {
    var r := PaginationQueryResult([]);
    assert FirstFault(r.edges) == 0;
    assert IdsTagged(r.edges, Deleted) == {};
    assert IdsTagged(r.edges, Added) == {};
    assert IdsTagged(r.edges, Updated) == {};
    assert r.GetLastCursor() == None;
    assert Reconcile(r).Success?;
    assert Reconcile(r).value.additions == {};
    assert Reconcile(r).value.lastCursor == None;
  }

  /** `fetch_deltas`: the walk's failure propagates, otherwise its edges are reconciled. */
  function Deltas(walked: Result<PaginationQueryResult, Error>): Result<DeltasResult, Error> {
    if walked.Failure? then Failure(walked.error) else Reconcile(walked.value)
  }

  class DeltaFetcher {
    const graphqlClient: GraphQLClient
    const query: string

    constructor(client: GraphQLClient, query: string)
      ensures graphqlClient == client && this.query == query
    {
      graphqlClient := client;
      this.query := query;
    }

    method FetchDeltas(variables: Variables) returns (r: Result<DeltasResult, Error>)
      modifies graphqlClient
      ensures var w := Walk(old(graphqlClient.script), query, variables);
        r == Deltas(w.result) && graphqlClient.log == old(graphqlClient.log) + w.requests
        && graphqlClient.script == w.remaining
    {
      var walked := graphqlClient.PaginateGqlQuery(query, variables);
      if walked.Failure? {
        return Failure(walked.error);
      }
      r := ExtractDeltas(walked.value);
    }
  }
}
