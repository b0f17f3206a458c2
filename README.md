# Kohana Paginate, modelled in Dafny

This project models the abstract base class `Kohana_Paginate` of the Kohana
pagination module. A paginator holds the paging state of one data source: page
size, current page, column lists, search query, four counts and the result. It
forwards paging, sorting, grouping and searching to a backend driver. Its
`execute()` runs a fixed pipeline of driver calls and derives the page count.

The backend driver is seen only through its eight abstract hooks (`_limit`,
`_sort`, `_group`, `_search`, `_execute`, `_count`, `_count_total`,
`_count_search_total`). Each hook call appends one `DriverCall` event to the
ghost log `calls`. The values the hooks return are passed in by the caller of
`Execute` as a `DriverAnswers` record.

Files and modules:

- `wrappers.dfy` (`Wrappers`): `Option`, `Result` and `Outcome`.
- `paging.dfy` (`Paging`): the integer rules, as pure functions with lemmas.
  These are the clean-up of `page()` arguments, the row offset of a page, the page
  count (ceiling division), and the clamped previous/next page numbers.
  `Numeric(n) | NonNumeric` models what PHP's `is_numeric` accepts.
- `driver_log.dfy` (`DriverLog`): the hook events and the calls of one
  `execute()` run. `Session` describes every log a paginator can produce:
  configuration calls mixed with complete runs.
- `factory.dfy` (`Factory`): the driver-selection rule of `factory()`.
- `paginate.dfy` (`Paginate`): the class `Paginator<Source, Db, Payload>`.
  Its fields, constructor and methods mirror the PHP class. The invariant
  `Valid()` is kept by every method that stands for a public PHP method: the
  current page is at least 1, the log is a session, the counts and result keep
  their defaults until the driver has produced them, and while no query was ever
  set the search hook was never called and the search total is 0. The driver
  hooks and the steps of `execute()` (`DriverSearch` to `FetchSearchTotal`) are
  parts of a run and do not keep it on their own.

The dual-mode getter/setters `search()`, `columns()` and `search_columns()` are
split in two. The getters are the functions `Search`, `Columns` and
`SearchColumns`; the setters are the methods `SetSearch`, `SetColumns` and
`SetSearchColumns`. The read-only accessors `count()`, `count_total()`,
`count_search_total()`, `count_pages()` and `result()` are the functions `Count`,
`CountTotal`, `CountSearchTotal`, `CountPages` and `Result`
(classes/Kohana/Paginate.php:341-377 and 466-469). `get_previous_page()` and
`get_next_page()` are `Paginator.PreviousPage` and `Paginator.NextPage`. These
accessors only read a field, or apply `Paging.PreviousPage` / `Paging.NextPage`
to the fields. What they return is stated by the contracts in the table below.
`SearchScenario` and `MalformedInputScenario` are client methods. They show what
a caller can conclude from the contracts alone. For example, with 101 rows and 10
per page, `CountPages()` is 11 and page 3 has previous page 2 and next page 4.

Some consequences of the code that a reader may not expect:

- `get_previous_page()` returns 1 for page 1 whatever the page count is, because
  its first branch (classes/Kohana/Paginate.php:401) fires first. The value -1
  occurs only for page 2 or later when the page count is 0
  (`Paging.PreviousPageWithoutPages`).
- A numeric page size is stored as given, so a negative page size is kept. For
  page 2 or later it gives a negative offset (page 1 always starts at offset 0),
  and it gives a page count of 0.
- `factory()` raises its exception for the explicit driver names `""` and `"0"`
  as well, because it tests the name with PHP's `!`.

## Model

| member | source | states |
|---|---|---|
| Paging.SanitizeItemsPerPage | classes/Kohana/Paginate.php:263-266 | a numeric page size is stored as given; anything else is stored as 0 |
| Paging.SanitizePage | classes/Kohana/Paginate.php:268-274 | a numeric page of at least 1 is stored as given; anything else is stored as 1; so the stored page is always at least 1 |
| Paging.SanitizePageIdempotent | classes/Kohana/Paginate.php:268-274 | sanitising a stored page again leaves it unchanged |
| Paging.Offset | classes/Kohana/Paginate.php:276 | the window start (page - 1) * size that page() passes to the limit hook; page 1 and page size 0 start at row 0 |
| Paging.OffsetNextPage | classes/Kohana/Paginate.php:276 | the offset of page p + 1 is the offset of page p plus the page size, so pages are adjacent windows |
| Paging.OffsetNonNegative | classes/Kohana/Paginate.php:271-276 | a page of at least 1 with a non-negative page size never starts before row 0 |
| Paging.RowOnPage | classes/Kohana/Paginate.php:276 | every row i lies in the window of page i / n + 1 |
| Paging.PageCount | classes/Kohana/Paginate.php:491-494 | with a positive page size the count r satisfies (r - 1) * size < total <= r * size, which is the ceiling; otherwise it is 0 |
| Paging.PageCountUnique | classes/Kohana/Paginate.php:492 | no other integer meets the ceiling bounds, so the page count is exactly the ceiling |
| Paging.LastPageHoldsLastRow | classes/Kohana/Paginate.php:491-494 | with at least one row, the last page is at least 1, is not empty and holds the last row |
| Paging.PagePastCountIsEmpty | classes/Kohana/Paginate.php:491-494 | a page past the page count starts after the last row, at row total or later: its window is empty |
| Paging.PreviousPage | classes/Kohana/Paginate.php:396-407 | page 1 (or lower) gives 1; page p with 2 <= p <= pages gives p - 1; a later page gives pages - 1; the result is below 1 exactly when p >= 2 and pages <= 1 |
| Paging.NextPage | classes/Kohana/Paginate.php:415-424 | never above the page count; equals page + 1 exactly when page < pages, and the page count otherwise |
| Paging.NextAfterPrevious | classes/Kohana/Paginate.php:396-424 | inside the page range, next of previous returns to the same page |
| Paging.PreviousAfterNext | classes/Kohana/Paginate.php:396-424 | below the last page, previous of next returns to the same page |
| Paging.PreviousPageWithoutPages | classes/Kohana/Paginate.php:398-404 | with a page count of 0, page 1 gives 1 and every later page gives -1 |
| DriverLog.PipelineCalls | classes/Kohana/Paginate.php:482-499 | the hook calls of one execute() run in source order; its contract fixes five calls with a query and three without, and PipelineCallsShape and SearchOpensRun state which calls and in what order |
| DriverLog.PipelineCallsShape | classes/Kohana/Paginate.php:482-499 | a run always calls execute, count and count_total; it calls search first and with the stored query, and count_search_total, exactly when a query is stored; it makes no configuration call |
| DriverLog.BlockThenSession | classes/Kohana/Paginate.php:246-316 | a configuration call or a complete run placed before a session gives a session |
| DriverLog.ConfigurationIsSession | classes/Kohana/Paginate.php:246-316 | one limit, sort or group call is a session |
| DriverLog.PipelineIsSession | classes/Kohana/Paginate.php:478-502 | the calls of one execute() run form a session, with or without a query |
| DriverLog.SessionThenPipeline | classes/Kohana/Paginate.php:478-502 | a session followed by one run is a session; it then contains an execute call, and a count_search_total call exactly when it had one already or the run searched |
| DriverLog.SessionAppend | classes/Kohana/Paginate.php:246-502 | sessions are closed under concatenation |
| DriverLog.SearchOpensRun | classes/Kohana/Paginate.php:482-499 | in any session, a search call is followed directly by execute, count, count_total and count_search_total, so the filter is applied before all counts |
| DriverLog.SearchTotalClosesSearchedRun | classes/Kohana/Paginate.php:496-499 | in any session, count_search_total is called only four calls after a search call, i.e. only in a run with a query |
| Factory.SelectDriver | classes/Kohana/Paginate.php:36-52 | succeeds exactly when a non-falsy name is given, or no name is given and the source is an ORM model or a database query; an explicit name is used as given; the defaults are "ORM" and "Database" |
| Factory.ExplicitDriverIgnoresSource | classes/Kohana/Paginate.php:38-48 | with an explicit driver name the kind of the source object does not matter |
| Paginate.Paginator.constructor | classes/Kohana/Paginate.php:65-165 | a new paginator keeps its source and has the defaults: no columns, no query, all counts 0, page size 0, page 1, no result, empty log |
| Paginate.Paginator.Configure | classes/Kohana/Paginate.php:174-194 | a limit, sort or group hook call is appended to the log and the log stays a session |
| Paginate.Paginator.Limit | classes/Kohana/Paginate.php:246-251 | appends exactly Limit(start, length) and changes nothing else |
| Paginate.Paginator.Page | classes/Kohana/Paginate.php:261-281 | stores the sanitised page size and page and appends exactly one Limit((page - 1) * size, size) with those values; no count, column or search field changes |
| Paginate.Paginator.Sort | classes/Kohana/Paginate.php:292-300 | fails with the direction exactly when it is neither "ASC" nor "DESC", and then leaves the log unchanged; otherwise appends exactly Sort(column, direction); the default direction is "ASC" |
| Paginate.Paginator.Group | classes/Kohana/Paginate.php:311-316 | appends exactly Group(column) and changes nothing else |
| Paginate.Paginator.SetSearch | classes/Kohana/Paginate.php:325-333 | afterwards the search getter returns the query; only the search field changes |
| Paginate.Paginator.SetColumns | classes/Kohana/Paginate.php:433-441 | afterwards the columns getter returns exactly the list; only the columns field changes |
| Paginate.Paginator.SetSearchColumns | classes/Kohana/Paginate.php:450-458 | afterwards the search-columns getter returns exactly the list; only that field changes |
| Paginate.Paginator.CurrentPage | classes/Kohana/Paginate.php:385-388 | the current page is never below 1 |
| Paginate.Paginator.DriverSearch | classes/Kohana/Paginate.php:204 | the search hook appends exactly Search(query) |
| Paginate.Paginator.DriverExecute | classes/Kohana/Paginate.php:236 | the execute hook appends exactly Execute and returns the driver's result |
| Paginate.Paginator.DriverCount | classes/Kohana/Paginate.php:212-228 | a counting hook appends exactly its own event and returns the driver's count |
| Paginate.Paginator.ApplySearch | classes/Kohana/Paginate.php:482-483 | calls the search hook with the stored query when there is one, and calls nothing otherwise |
| Paginate.Paginator.FetchResults | classes/Kohana/Paginate.php:485-489 | stores the driver's result, count and total, calling execute, count and count_total in that order |
| Paginate.Paginator.UpdatePageCount | classes/Kohana/Paginate.php:491-494 | the page count becomes the ceiling of total over page size, or 0 when the page size is not positive |
| Paginate.Paginator.FetchSearchTotal | classes/Kohana/Paginate.php:496-499 | with a query, stores the driver's search total after calling count_search_total; without one, keeps the old value and calls nothing |
| Paginate.Paginator.Execute | classes/Kohana/Paginate.php:478-502 | the context defaults to none, as `$db = NULL` does; stores the context, result, count and total; sets the page count to the ceiling or 0; updates the search total only when a query is stored; appends exactly the run's calls in source order; keeps the invariant |
| Paginate.Paginator.RunKeepsValid | classes/Kohana/Paginate.php:478-502 | after a run appended to a session the invariant holds again, including "search total 0 until count_search_total was called" and "no search call and search total 0 while no query is set" |
| Paginate.Paginator.NoQueryNoSearchTotal | classes/Kohana/Paginate.php:482-499 | while no query was ever set, count_search_total was never called and count_search_total() returns 0 |

## Left out

- Instantiating the driver class `'Paginate_' . $driver` with `new $class`
  (classes/Kohana/Paginate.php:54-56). This is runtime reflection into driver
  classes that are not part of this model. `Factory.SelectDriver` returns the
  chosen driver name or the exception.
- The concrete ORM and Database drivers. Their hooks are the logged events, and
  their return values are parameters of `Execute`.
- What the source object, the execution context `$_db` and the result are. They
  are the type parameters `Source`, `Db` and `Payload`: stored and returned, never
  inspected.
- PHP type coercion. Numeric strings and floats accepted by `is_numeric`, the
  `(int)` casts, `ceil` returning a float, and loose comparison in `in_array` for
  non-string directions are not modelled. Inputs are integers or `NonNumeric`.
  Directions and queries are strings.
- 64-bit integer overflow to float in `(page - 1) * itemsperpage` and in the
  counts. Integers here are unbounded.
- Exceptions raised by driver hooks in the middle of `execute()`, and the
  partially updated state they leave. The hooks here always return.
- The fluent `return $this` of the setters and configuration calls. The methods
  return nothing, or the outcome of `Sort`.
- Exception message texts and the `SYSPATH` guard on line 1.
- Paginator.PreviousPage, Paginator.NextPage and the accessors Count, CountTotal, CountSearchTotal, CountPages, Result, Search, Columns, SearchColumns: no contract of their own. They only read fields or apply `Paging.PreviousPage` / `Paging.NextPage`, whose contracts are stated in the table.
