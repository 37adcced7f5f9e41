/**
 * TransactionReader: hands out transactions one at a time from a page and asks
 * the page source for the next page once the current one is used up.
 *
 * The page source is an Oracle package function outside the repository; each
 * call of Read receives, as a parameter, the answer that source would give if
 * it is asked during that call.
 */
module TransactionReader {
  import opened Wrappers
  import opened Domain
  import TransactionMapper

  /** PACKAGE_LIMIT: the page size fixed inside the package. */
  const PackageLimit: int := 10

  /** getPageSize(). */
  function PageSize(): int {
    PackageLimit
  }

  /** The page source's answer: a list of projections (which may be null), or a thrown exception. */
  datatype PageResponse =
    | Page(projections: Option<seq<Option<TransactionProjection>>>)
    | SourceFailure(cause: Throwable)

  /**
   * What read throws: the RuntimeException loadNextPage wraps a source
   * failure in, or the NullPointerException of the debug log line that
   * dereferences a null entry of the page.
   */
  datatype ReadFailure =
    | LoadFailure(message: string, cause: Throwable)
    | NullEntry

  const LoadFailureMessage: string := "Error loading transaction page from Oracle Package via Repository"

  /** A page as the reader holds it: the mapped entities, in page order. */
  type PageData = seq<Option<Transaction>>

  /**
   * loadNextPage(): each projection goes through the mapper, in order; a null
   * or empty list gives null; a failure of the source is rethrown wrapped.
   */
  function LoadNextPage(response: PageResponse): (r: Result<Option<PageData>, ReadFailure>)
    ensures r.Err? <==> response.SourceFailure?
    ensures r.Err? ==> r.error == LoadFailure(LoadFailureMessage, response.cause)
    ensures r.Ok? ==> (r.value.None? <==> response.projections.None? || |response.projections.value| == 0)
    ensures r.Ok? && r.value.Some? ==>
      var ps := response.projections.value;
      |r.value.value| == |ps| && forall i :: 0 <= i < |ps| ==> r.value.value[i] == TransactionMapper.ProjectionToEntity(ps[i])
  {
    match response
    case SourceFailure(cause) => Err(LoadFailure(LoadFailureMessage, cause))
    case Page(projections) =>
      if projections.Some? && |projections.value| > 0 then
        var ps := projections.value;
        Ok(Some(seq(|ps|, i requires 0 <= i < |ps| => TransactionMapper.ProjectionToEntity(ps[i]))))
      else Ok(None)
  }

  /** What read does with the entry at the index: hands it out, or fails on a null entry. */
  function Handed(entry: Option<Transaction>): (r: Result<Option<Transaction>, ReadFailure>)
    ensures r != Ok(None)
    ensures r.Ok? <==> entry.Some?
  {
    if entry.None? then Err(NullEntry) else Ok(entry)
  }

  class TransactionReader {
    var currentPageData: Option<PageData>
    var currentIndex: int
    var initialized: bool

    /** While a page is held it is non-empty and the index lies within it. */
    ghost predicate Valid()
      reads this
    {
      && 0 <= currentIndex
      && (currentPageData.Some? ==> 0 < |currentPageData.value| && currentIndex <= |currentPageData.value|)
    }

    /** The current page is missing or used up, so the next read asks the source. */
    predicate Exhausted()
      reads this
    {
      currentPageData.None? || currentIndex >= |currentPageData.value|
    }

    constructor ()
      ensures Valid() && currentPageData.None? && currentIndex == 0 && !initialized
    {
      currentPageData := None;
      currentIndex := 0;
      initialized := false;
    }

    /** reset(): back to the state before the first read. */
    method Reset()
      modifies this
      ensures Valid() && currentPageData.None? && currentIndex == 0 && !initialized
    {
      currentIndex := 0;
      currentPageData := None;
      initialized := false;
    }

    /** initialize(): a reset (its log line is left out). */
    method Initialize()
      modifies this
      ensures Valid() && currentPageData.None? && currentIndex == 0 && !initialized
    {
      Reset();
    }

    /**
     * read(): the next transaction of the page, fetching a new page first when
     * the current one is used up; null when a fresh page is null or empty. The
     * end of the stream is not remembered: the next read asks the source again.
     */
    method Read(response: PageResponse) returns (r: Result<Option<Transaction>, ReadFailure>)
      requires Valid()
      modifies this
      ensures Valid() && initialized
      ensures var page := if old(initialized) then old(currentPageData) else None;
              var index := if old(initialized) then old(currentIndex) else 0;
              if page.None? || index >= |page.value| then
                var loaded := LoadNextPage(response);
                if loaded.Err? then
                  r == Err(loaded.error) && currentPageData == page && currentIndex == index
                else if loaded.value.None? then
                  r == Ok(None) && currentPageData.None? && currentIndex == 0
                else
                  r == Handed(loaded.value.value[0]) && currentPageData == loaded.value && currentIndex == 1
              else
                r == Handed(page.value[index]) && currentPageData == page && currentIndex == index + 1
      ensures r == Ok(None) <==>
                (!old(initialized) || old(Exhausted())) && LoadNextPage(response) == Ok(None)
    {
      if !initialized {
        Initialize();
        initialized := true;
      }
      if Exhausted() {
        var loaded := LoadNextPage(response);
        if loaded.Err? {
          return Err(loaded.error);
        }
        currentPageData := loaded.value;
        currentIndex := 0;
        if currentPageData.None? || |currentPageData.value| == 0 {
          return Ok(None);
        }
      }
      var transaction := currentPageData.value[currentIndex];
      currentIndex := currentIndex + 1;
      return Handed(transaction);
    }
  }
}
