/**
 * The item resolver: fetches the full records of a stream, either those whose ids are listed or
 * every record after a cursor, and wraps them with the cursor of the last one.
 */
module ItemFetching {
  import opened Wrappers
  import opened Errors
  import opened Json
  import opened GqlClient
  import opened DataTransformation

  /** The page size both fetches ask for unless told otherwise. */
  const DefaultPageSize: int := 10000

  /** The records of one fetch and the cursor of the last of them. */
  class ItemsResult {
    var items: seq<Json>
    var cursor: Cursor

    constructor(items: seq<Json>, cursor: Cursor)
      ensures this.items == items && this.cursor == cursor
    {
      this.items := items;
      this.cursor := cursor;
    }

    /** `bool(self.items)`: some record was fetched. */
    predicate HasItems()
      reads this
      ensures HasItems() <==> |GetItems()| > 0
    {
      items != []
    }

    function GetItems(): seq<Json>
      reads this
    {
      items
    }

    function GetLastItemCursor(): Cursor
      reads this
    {
      cursor
    }

    /**
     * Sets key := value in every record, in place; a record that is not a dict raises
     * ValueError, leaving the records before it tagged.
     */
    method AddKeyValueToItems(key: string, value: Json) returns (err: Option<Error>)
      modifies this
      ensures items == Tagged(old(items), key, value) && cursor == old(cursor)
      ensures err.Some? <==> FirstNonDict(old(items)) < |old(items)|
      ensures err.Some? ==> err == Some(ValueError(NotADictMessage))
    {
      var updated, e := AddKeyValueToDicts(Arr(items), key, value);
      items := updated.elems;
      err := e;
    }
  }

  /** The variables of a fetch by ids. */
  function ByIdsVariables(dbIds: seq<Json>, first: int): Variables {
    map["first" := Num(first), "dbIdList" := Arr(dbIds)]
  }

  /** The variables of a fetch after a cursor. */
  function AfterCursorVariables(after: Cursor, first: int): Variables {
    map["first" := Num(first), "after" := CursorValue(after)]
  }

  /** Every page of a fetch by ids asks for the same ids and the same page size. */
  lemma ByIdsRequestsKeepFilter(script: seq<Attempt>, query: string, dbIds: seq<Json>, first: int)
    ensures var w := Walk(script, query, ByIdsVariables(dbIds, first));
      forall i :: 0 <= i < |w.requests| ==>
        w.requests[i].query == query
        && "dbIdList" in w.requests[i].variables && w.requests[i].variables["dbIdList"] == Arr(dbIds)
        && "first" in w.requests[i].variables && w.requests[i].variables["first"] == Num(first)
  {
    var vars := ByIdsVariables(dbIds, first);
    var w := Walk(script, query, vars);
    WalkRequests(script, query, vars, [], None);
    forall i | 0 <= i < |w.requests|
      ensures "dbIdList" in w.requests[i].variables && w.requests[i].variables["dbIdList"] == Arr(dbIds)
      ensures "first" in w.requests[i].variables && w.requests[i].variables["first"] == Num(first)
    {
      var v := w.requests[i].variables;
      assert v - {"after"} == vars - {"after"};
      assert "dbIdList" in vars - {"after"} && "first" in vars - {"after"};
      assert (v - {"after"})["dbIdList"] == v["dbIdList"];
      assert (v - {"after"})["first"] == v["first"];
    }
  }

  class ItemFetcher {
    const graphqlClient: GraphQLClient
    const queryByDbids: string
    const queryByCursor: string

    constructor(client: GraphQLClient, queryByDbids: string, queryByCursor: string)
      ensures graphqlClient == client && this.queryByDbids == queryByDbids && this.queryByCursor == queryByCursor
    {
      graphqlClient := client;
      this.queryByDbids := queryByDbids;
      this.queryByCursor := queryByCursor;
    }

    /** An empty list of ids sends no request and yields no records. */
    method FetchItemsByIds(dbIds: seq<Json>, first: int := DefaultPageSize) returns (r: Result<ItemsResult, Error>)
      modifies graphqlClient
      ensures dbIds == [] ==>
        r.Success? && fresh(r.value) && r.value.items == [] && r.value.cursor == None
        && graphqlClient.script == old(graphqlClient.script) && graphqlClient.log == old(graphqlClient.log)
      ensures dbIds != [] ==>
        var w := Walk(old(graphqlClient.script), queryByDbids, ByIdsVariables(dbIds, first));
        graphqlClient.log == old(graphqlClient.log) + w.requests && graphqlClient.script == w.remaining
        && (w.result.Failure? ==> r == Failure(w.result.error))
        && (w.result.Success? ==>
              r.Success? && fresh(r.value)
              && r.value.items == w.result.value.GetNodes() && r.value.cursor == w.result.value.GetLastCursor())
    {
      if dbIds == [] {
        var empty := new ItemsResult([], None);
        return Success(empty);
      }
      var walked := graphqlClient.PaginateGqlQuery(queryByDbids, ByIdsVariables(dbIds, first));
      if walked.Failure? {
        return Failure(walked.error);
      }
      var items := new ItemsResult(walked.value.GetNodes(), walked.value.GetLastCursor());
      return Success(items);
    }

    method FetchAllItemsAfterCursor(after: Cursor := None, first: int := DefaultPageSize) returns (r: Result<ItemsResult, Error>)
      modifies graphqlClient
      ensures var w := Walk(old(graphqlClient.script), queryByCursor, AfterCursorVariables(after, first));
        graphqlClient.log == old(graphqlClient.log) + w.requests && graphqlClient.script == w.remaining
        && (w.result.Failure? ==> r == Failure(w.result.error))
        && (w.result.Success? ==>
              r.Success? && fresh(r.value)
              && r.value.items == w.result.value.GetNodes() && r.value.cursor == w.result.value.GetLastCursor())
    {
      var walked := graphqlClient.PaginateGqlQuery(queryByCursor, AfterCursorVariables(after, first));
      if walked.Failure? {
        return Failure(walked.error);
      }
      var items := new ItemsResult(walked.value.GetNodes(), walked.value.GetLastCursor());
      return Success(items);
    }
  }
}
