/**
 * Kohana_Paginate: the paging state of one data source and the fixed pipeline
 * that execute() runs against the backend driver. The driver is observed only
 * through the ghost log `calls` of the hook calls it receives; the values its
 * hooks return are supplied by the caller of Execute.
 */
module Paginate {

  import opened Wrappers
  import opened Paging
  import opened DriverLog

  const SORT_ASC: string := "ASC"
  const SORT_DESC: string := "DESC"

  /** The directions sort() accepts. */
  predicate ValidDirection(direction: string)
  {
    direction == SORT_ASC || direction == SORT_DESC
  }

  /** The exception sort() raises for any other direction. */
  datatype SortError = InvalidSortOrder(direction: string)

  /** What the driver's _execute, _count, _count_total and _count_search_total hooks return. */
  datatype DriverAnswers<Payload> =
    DriverAnswers(result: Payload, count: int, countTotal: int, countSearchTotal: int)

  class Paginator<Source, Db, Payload> {
    /** The object paged over (`_object`). */
    const source: Source

    var columns: seq<string>
    var searchColumns: seq<string>
    var searchQuery: Option<string>
    var count: int
    var countTotal: int
    var countSearchTotal: int
    var itemsPerPage: int
    var countPages: int
    var currentPage: int
    var result: Option<Payload>
    /** The execution context last passed to execute (`_db`). */
    var db: Option<Db>

    /** The driver hook calls issued so far, oldest first. */
    ghost var calls: seq<DriverCall>

    /**
     * The paging state invariant: the current page is at least 1, the hook calls form
     * a session, the counts and result keep their defaults until the driver has
     * produced them, and while no query was ever set the search hook was never called
     * and the search total is 0.
     */
    ghost predicate Valid()
      reads this
    {
      currentPage >= 1 &&
      Session(calls) &&
      (DriverCall.Execute !in calls ==> result == None && count == 0 && countTotal == 0 && countPages == 0) &&
      (DriverCall.CountSearchTotal !in calls ==> countSearchTotal == 0) &&
      (searchQuery.None? ==> countSearchTotal == 0 && forall q :: DriverCall.Search(q) !in calls)
    }

    constructor (source: Source)
      ensures Valid()
      ensures this.source == source
      ensures columns == [] && searchColumns == [] && searchQuery == None
      ensures count == 0 && countTotal == 0 && countSearchTotal == 0 && countPages == 0
      ensures itemsPerPage == 0 && currentPage == 1
      ensures result == None && db == None
      ensures calls == []
    {
      this.source := source;
      columns, searchColumns, searchQuery := [], [], None;
      count, countTotal, countSearchTotal := 0, 0, 0;
      itemsPerPage, countPages, currentPage := 0, 0, 1;
      result, db := None, None;
      calls := [];
    }

    /** Records one configuration hook call; the log stays a session. */
    method Configure(c: DriverCall)
      requires Valid() && IsConfiguration(c)
      modifies this`calls
      ensures Valid()
      ensures calls == old(calls) + [c]
    {
      ConfigurationIsSession(c);
      SessionAppend(calls, [c]);
      calls := calls + [c];
    }

    /** limit(): forwards the window to the driver unchecked. */
    method Limit(start: int, length: int)
      requires Valid()
      modifies this`calls
      ensures Valid()
      ensures calls == old(calls) + [DriverCall.Limit(start, length)]
    {
      Configure(DriverCall.Limit(start, length));
    }

    /**
     * page(): stores the sanitised page size and page number and applies the
     * window of that page through the driver's limit hook.
     */
    method Page(page: Numeric, itemsPerPage: Numeric)
      requires Valid()
      modifies this`itemsPerPage, this`currentPage, this`calls
      ensures Valid()
      ensures this.itemsPerPage == SanitizeItemsPerPage(itemsPerPage)
      ensures currentPage == SanitizePage(page)
      ensures calls == old(calls) +
        [DriverCall.Limit(Offset(currentPage, this.itemsPerPage), this.itemsPerPage)]
    {
      var n := if itemsPerPage.Numeric? then itemsPerPage.n else 0;
      this.itemsPerPage := n;
      var p := if page.Numeric? then page.n else 1;
      if p < 1 {
        p := 1;
      }
      currentPage := p;
      var offset := (p - 1) * n;
      Configure(DriverCall.Limit(offset, n));
    }

    /** sort(): rejects any direction but ASC and DESC before the driver sees it. */
    method Sort(column: string, direction: string := SORT_ASC) returns (r: Outcome<SortError>)
      requires Valid()
      modifies this`calls
      ensures Valid()
      ensures r.Pass? <==> ValidDirection(direction)
      ensures r.Fail? ==> r.error == InvalidSortOrder(direction) && calls == old(calls)
      ensures r.Pass? ==> calls == old(calls) + [DriverCall.Sort(column, direction)]
    {
      if !(direction == SORT_ASC || direction == SORT_DESC) {
        return Fail(InvalidSortOrder(direction));
      }
      Configure(DriverCall.Sort(column, direction));
      r := Pass;
    }

    /** group(): forwards the column to the driver. */
    method Group(column: string)
      requires Valid()
      modifies this`calls
      ensures Valid()
      ensures calls == old(calls) + [DriverCall.Group(column)]
    {
      Configure(DriverCall.Group(column));
    }

    /** search() without an argument: the stored query, None if never set. */
    function Search(): Option<string>
      reads this
    {
      searchQuery
    }

    /** search(query): stores the query; a stored query can be replaced but not cleared. */
    method SetSearch(query: string)
      requires Valid()
      modifies this`searchQuery
      ensures Valid()
      ensures Search() == Some(query)
    {
      searchQuery := Some(query);
    }

    /** columns() without an argument. */
    function Columns(): seq<string>
      reads this
    {
      columns
    }

    /** columns(list): stores the projection columns. */
    method SetColumns(columns: seq<string>)
      requires Valid()
      modifies this`columns
      ensures Valid()
      ensures Columns() == columns
    {
      this.columns := columns;
    }

    /** search_columns() without an argument. */
    function SearchColumns(): seq<string>
      reads this
    {
      searchColumns
    }

    /** search_columns(list): stores the columns the search runs over. */
    method SetSearchColumns(columns: seq<string>)
      requires Valid()
      modifies this`searchColumns
      ensures Valid()
      ensures SearchColumns() == columns
    {
      searchColumns := columns;
    }

    function Count(): int
      reads this
    {
      count
    }

    function CountTotal(): int
      reads this
    {
      countTotal
    }

    function CountSearchTotal(): int
      reads this
    {
      countSearchTotal
    }

    function CountPages(): int
      reads this
    {
      countPages
    }

    function Result(): Option<Payload>
      reads this
    {
      result
    }

    /** get_current_page(): the stored page, never below 1. */
    function CurrentPage(): (p: int)
      reads this
      requires Valid()
      ensures p >= 1
    {
      currentPage
    }

    /** get_previous_page(). */
    function PreviousPage(): int
      reads this
    {
      Paging.PreviousPage(currentPage, CountPages())
    }

    /** get_next_page(). */
    function NextPage(): int
      reads this
    {
      Paging.NextPage(currentPage, CountPages())
    }

    /** The driver's _search hook: applies the query before the run. */
    method DriverSearch(query: string)
      modifies this`calls
      ensures calls == old(calls) + [DriverCall.Search(query)]
    {
      calls := calls + [DriverCall.Search(query)];
    }

    /** The driver's _execute hook, returning the materialised result `answer`. */
    method DriverExecute(answer: Payload) returns (r: Payload)
      modifies this`calls
      ensures r == answer && calls == old(calls) + [DriverCall.Execute]
    {
      calls := calls + [DriverCall.Execute];
      r := answer;
    }

    /** One of the driver's counting hooks (`c` says which), returning `answer`. */
    method DriverCount(c: DriverCall, answer: int) returns (n: int)
      requires c == DriverCall.Count || c == DriverCall.CountTotal || c == DriverCall.CountSearchTotal
      modifies this`calls
      ensures n == answer && calls == old(calls) + [c]
    {
      calls := calls + [c];
      n := answer;
    }

    /** Step 1 of execute(): the search hook, only when a query is stored. */
    method ApplySearch()
      modifies this`calls
      ensures calls == old(calls) + SearchCall(searchQuery)
    {
      if searchQuery != None {
        DriverSearch(searchQuery.value);
      }
    }

    /** Steps 2 to 4 of execute(): run the query, then read the row count of this request and the total. */
    method FetchResults(answers: DriverAnswers<Payload>)
      modifies this`result, this`count, this`countTotal, this`calls
      ensures result == Some(answers.result)
      ensures count == answers.count && countTotal == answers.countTotal
      ensures calls == old(calls) + [DriverCall.Execute, DriverCall.Count, DriverCall.CountTotal]
    {
      var r := DriverExecute(answers.result);
      result := Some(r);
      count := DriverCount(DriverCall.Count, answers.count);
      countTotal := DriverCount(DriverCall.CountTotal, answers.countTotal);
    }

    /** Step 5 of execute(): ceiling of the total over the page size, or 0. */
    method UpdatePageCount()
      modifies this`countPages
      ensures countPages == PageCount(countTotal, itemsPerPage)
    {
      if itemsPerPage > 0 {
        countPages := (countTotal + itemsPerPage - 1) / itemsPerPage;
      } else {
        countPages := 0;
      }
    }

    /** Step 6 of execute(): the search total, read only when a query is stored. */
    method FetchSearchTotal(answer: int)
      modifies this`countSearchTotal, this`calls
      ensures countSearchTotal == if searchQuery.Some? then answer else old(countSearchTotal)
      ensures calls == old(calls) + SearchTotalCall(searchQuery)
    {
      if searchQuery != None {
        countSearchTotal := DriverCount(DriverCall.CountSearchTotal, answer);
      }
    }

    /**
     * execute(): applies the stored search, runs the query, reads the counts from the
     * driver, derives the page count and, only when searching, the search total.
     * `answers` are the values the driver's hooks return during this run.
     */
    method Execute(db: Option<Db> := None, answers: DriverAnswers<Payload>)
      requires Valid()
      modifies this`db, this`result, this`count, this`countTotal, this`countPages,
        this`countSearchTotal, this`calls
      ensures Valid()
      ensures this.db == db
      ensures result == Some(answers.result)
      ensures count == answers.count && countTotal == answers.countTotal
      ensures countPages == PageCount(answers.countTotal, itemsPerPage)
      ensures countSearchTotal ==
        if searchQuery.Some? then answers.countSearchTotal else old(countSearchTotal)
      ensures calls == old(calls) + PipelineCalls(searchQuery)
    {
      ghost var before := calls;
      this.db := db;
      ApplySearch();
      FetchResults(answers);
      UpdatePageCount();
      FetchSearchTotal(answers.countSearchTotal);
      assert calls == before + PipelineCalls(searchQuery);
      RunKeepsValid(before, old(countSearchTotal));
    }

    /** The paging state after one run of execute() satisfies the invariant. */
    lemma RunKeepsValid(before: seq<DriverCall>, searchTotalBefore: int)
      requires currentPage >= 1 && Session(before)
      requires DriverCall.CountSearchTotal !in before ==> searchTotalBefore == 0
      requires calls == before + PipelineCalls(searchQuery)
      requires searchQuery.None? ==> countSearchTotal == searchTotalBefore
      requires searchQuery.None? ==>
        searchTotalBefore == 0 && forall q :: DriverCall.Search(q) !in before
      ensures Valid()
    {
      SessionThenPipeline(before, searchQuery);
      PipelineCallsShape(searchQuery);
    }

    /**
     * While no query was ever set, execute() never called count_search_total and
     * count_search_total() is 0.
     */
    lemma NoQueryNoSearchTotal()
      requires Valid() && searchQuery.None?
      ensures DriverCall.CountSearchTotal !in calls
      ensures CountSearchTotal() == 0
    {
      if DriverCall.CountSearchTotal in calls {
        var i :| 0 <= i < |calls| && calls[i] == DriverCall.CountSearchTotal;
        SearchTotalClosesSearchedRun(calls, i);
      }
    }
  }

  /** What a caller can conclude from the contracts alone for a request with a search. */
  method SearchScenario()
  {
    var p := new Paginator<int, int, seq<int>>(0);
    p.Page(Numeric(3), Numeric(10));
    assert p.calls == [DriverCall.Limit(20, 10)];
    var sorted := p.Sort("name", "SIDEWAYS");
    assert sorted.Fail? && p.calls == [DriverCall.Limit(20, 10)];
    sorted := p.Sort("name");
    assert sorted.Pass?;
    p.SetSearch("foo");
    p.Execute(answers := DriverAnswers([7], 10, 101, 101));
    assert p.CountPages() == 11;
    assert p.PreviousPage() == 2 && p.NextPage() == 4;
    assert p.calls[2..] ==
      [DriverCall.Search("foo"), DriverCall.Execute, DriverCall.Count, DriverCall.CountTotal,
       DriverCall.CountSearchTotal];
  }

  /** What a caller can conclude from the contracts alone for malformed paging input. */
  method MalformedInputScenario()
  {
    var q := new Paginator<int, int, seq<int>>(0);
    q.Page(NonNumeric, NonNumeric);
    q.Execute(None, DriverAnswers([], 0, 101, 5));
    assert q.CountPages() == 0 && q.CountSearchTotal() == 0 && q.CurrentPage() == 1;
    assert q.PreviousPage() == 1 && q.NextPage() == 0;
  }
}
