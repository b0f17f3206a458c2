/**
 * The eight abstract driver hooks of Kohana_Paginate (_limit, _sort, _group,
 * _search, _execute, _count, _count_total, _count_search_total), recorded as
 * events of a call log, and the shape every log produced through the public
 * operations has.
 */
module DriverLog {

  import opened Wrappers

  /** One call into the backend driver. */
  datatype DriverCall =
    | Limit(start: int, length: int)
    | Sort(column: string, direction: string)
    | Group(column: string)
    | Search(query: string)
    | Execute
    | Count
    | CountTotal
    | CountSearchTotal

  /** Calls that configure the query and may be issued at any time between runs. */
  predicate IsConfiguration(c: DriverCall)
  {
    c.Limit? || c.Sort? || c.Group?
  }

  /** The calls one execute() issues, given the stored search query. */
  function PipelineCalls(query: Option<string>): (r: seq<DriverCall>)
    ensures |r| == (if query.Some? then 5 else 3)
  {
    SearchCall(query) + [Execute, Count, CountTotal] + SearchTotalCall(query)
  }

  /** The search hook call that opens a run, present only when a query is stored. */
  function SearchCall(query: Option<string>): seq<DriverCall>
  {
    if query.Some? then [Search(query.value)] else []
  }

  /** The count_search_total hook call that closes a run, present only when a query is stored. */
  function SearchTotalCall(query: Option<string>): seq<DriverCall>
  {
    if query.Some? then [CountSearchTotal] else []
  }

  /**
   * What one run of execute() asks of the driver: execute, count and count_total always;
   * the search hook, first and with the stored query, and count_search_total exactly when
   * a query is stored; and no configuration call.
   */
  lemma PipelineCallsShape(query: Option<string>)
    ensures var r := PipelineCalls(query);
      Execute in r && Count in r && CountTotal in r &&
      (query.Some? ==> r[0] == Search(query.value)) &&
      (CountSearchTotal in r <==> query.Some?) &&
      (forall q :: Search(q) in r <==> query == Some(q)) &&
      (forall c :: c in r ==> !IsConfiguration(c))
  {
  }

  /**
   * One block of a session: a single configuration call, or one complete run of
   * execute(): Execute, Count, CountTotal, with Search(q) before it and
   * CountSearchTotal after it exactly when a query was stored.
   */
  predicate Block(b: seq<DriverCall>)
  {
    (|b| == 1 && IsConfiguration(b[0])) ||
    b == [Execute, Count, CountTotal] ||
    (|b| == 5 && b[0].Search? && b[1..] == [Execute, Count, CountTotal, CountSearchTotal])
  }

  /** The length of the block that a call opens. */
  function BlockLength(c: DriverCall): (n: nat)
    ensures n >= 1
  {
    if IsConfiguration(c) then 1 else if c.Search? then 5 else 3
  }

  /** A session log: a sequence of blocks, each configuration call or complete run. */
  predicate Session(log: seq<DriverCall>)
    decreases |log|
  {
    log == [] ||
    (var k := BlockLength(log[0]); k <= |log| && Block(log[..k]) && Session(log[k..]))
  }

  /** A block in front of a session gives a session. */
  lemma BlockThenSession(b: seq<DriverCall>, log: seq<DriverCall>)
    requires Block(b) && Session(log)
    ensures Session(b + log)
  {
  }

  /** A single configuration call is a session. */
  lemma ConfigurationIsSession(c: DriverCall)
    requires IsConfiguration(c)
    ensures Session([c])
  {
  }

  /** The calls of one execute() form a session, whatever the stored query. */
  lemma PipelineIsSession(query: Option<string>)
    ensures Session(PipelineCalls(query))
  {
  }

  /**
   * Appending one run of execute() to a session gives a session that contains an
   * Execute call, and a CountSearchTotal call exactly when it had one or the run searched.
   */
  lemma SessionThenPipeline(log: seq<DriverCall>, query: Option<string>)
    requires Session(log)
    ensures Session(log + PipelineCalls(query))
    ensures Execute in log + PipelineCalls(query)
    ensures CountSearchTotal in log + PipelineCalls(query) <==>
      CountSearchTotal in log || query.Some?
  {
    PipelineIsSession(query);
    SessionAppend(log, PipelineCalls(query));
  }

  /** Sessions are closed under concatenation. */
  lemma {:induction false} SessionAppend(a: seq<DriverCall>, b: seq<DriverCall>)
    requires Session(a) && Session(b)
    ensures Session(a + b)
    decreases |a|
  {
    if a == [] {
      assert a + b == b;
    } else {
      var k := BlockLength(a[0]);
      assert a == a[..k] + a[k..];
      assert a + b == a[..k] + (a[k..] + b);
      SessionAppend(a[k..], b);
      BlockThenSession(a[..k], a[k..] + b);
    }
  }

  /**
   * In a session, a search is followed right away by the rest of its run: the query is
   * applied before execute, count and count_total, and count_search_total closes the run.
   */
  lemma {:induction false} SearchOpensRun(log: seq<DriverCall>, i: int)
    requires Session(log)
    requires 0 <= i < |log| && log[i].Search?
    ensures i + 4 < |log|
    ensures log[i + 1] == Execute && log[i + 2] == Count && log[i + 3] == CountTotal
    ensures log[i + 4] == CountSearchTotal
    decreases |log|
  {
    var k := BlockLength(log[0]);
    var b := log[..k];
    assert forall j :: 0 <= j < k ==> b[j] == log[j];
    if i < k {
      assert b[i].Search?;
      assert forall j :: 1 <= j < |b| ==> !b[j].Search? by {
        if |b| == 5 { assert forall j :: 1 <= j < 5 ==> b[j] == b[1..][j - 1]; }
      }
      assert i == 0 && b[1..][0] == b[1] && b[1..][1] == b[2];
      assert b[1..][2] == b[3] && b[1..][3] == b[4];
    } else {
      SearchOpensRun(log[k..], i - k);
      assert forall j :: k <= j < |log| ==> log[k..][j - k] == log[j];
    }
  }

  /** In a session, count_search_total is only ever called at the end of a run that searched. */
  lemma {:induction false} SearchTotalClosesSearchedRun(log: seq<DriverCall>, i: int)
    requires Session(log)
    requires 0 <= i < |log| && log[i] == CountSearchTotal
    ensures i >= 4 && log[i - 4].Search?
    decreases |log|
  {
    var k := BlockLength(log[0]);
    var b := log[..k];
    assert forall j :: 0 <= j < k ==> b[j] == log[j];
    if i < k {
      assert b[i] == CountSearchTotal;
      assert |b| == 5 && b[1..][3] == b[4];
      assert forall j :: 1 <= j < 4 ==> b[j] == b[1..][j - 1];
    } else {
      SearchTotalClosesSearchedRun(log[k..], i - k);
      assert forall j :: k <= j < |log| ==> log[k..][j - k] == log[j];
    }
  }
}
