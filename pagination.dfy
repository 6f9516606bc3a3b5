/** `usePagination`: the current page, the loaded items and their total, and the loading
    and error state of the fetch that fills them. */
module Pagination {
  import opened Wrappers

  /** `Math.ceil(total / perPage)`: the least number of pages of `perPage` items that hold
      `total` items. */
  function PageCount(total: int, perPage: int): (r: int)
    requires perPage > 0
    ensures r * perPage >= total
    ensures (r - 1) * perPage < total
  {
    -((-total) / perPage)
  }

  lemma MulMonotone(a: int, b: int, d: int)
    requires a <= b && d > 0
    ensures a * d <= b * d
  {
  }

  /** A whole number of full pages needs no extra page. */
  lemma PageCountFullPages(pages: nat, perPage: int)
    requires perPage > 0
    ensures PageCount(pages * perPage, perPage) == pages
  {
    var t := pages * perPage;
    var r := PageCount(t, perPage);
    if r < pages {
      assert (pages - 1) * perPage == t - perPage;
      MulMonotone(r, pages - 1, perPage);
      assert false;
    } else if r > pages {
      MulMonotone(pages, r - 1, perPage);
      assert false;
    }
  }

  /** One item past full pages needs one more page. */
  lemma PageCountOneMore(pages: nat, perPage: int)
    requires perPage > 0
    ensures PageCount(pages * perPage + 1, perPage) == pages + 1
  {
    var t := pages * perPage + 1;
    var s := PageCount(t, perPage);
    if s < pages + 1 {
      MulMonotone(s, pages, perPage);
      assert false;
    } else if s > pages + 1 {
      assert (pages + 1) * perPage == pages * perPage + perPage;
      MulMonotone(pages + 1, s - 1, perPage);
      assert false;
    }
  }

  /** The message kept when a fetch fails: the error's own message when it is an `Error`,
      a fixed text otherwise. */
  function FetchErrorMessage(errorMessage: Option<string>): (r: string)
    ensures errorMessage.Some? ==> r == errorMessage.value
    ensures errorMessage.None? ==> r == "An error occurred"
  {
    if errorMessage.Some? then errorMessage.value else "An error occurred"
  }

  /** A fetch result: the page's items and the total, or the failure (`Some(message)` for an
      `Error`, `None` for anything else thrown). */
  datatype FetchOutcome<T> = Loaded(data: seq<T>, total: int) | Failed(errorMessage: Option<string>)

  class Paginator<T> {
    var currentPage: int
    const itemsPerPage: int
    var items: seq<T>
    var totalItems: int
    var loading: bool
    var error: Option<string>

    function TotalPages(): int
      reads this
      requires itemsPerPage > 0
    {
      PageCount(totalItems, itemsPerPage)
    }

    /** The hook's initial state; both options default when absent. */
    constructor (initialPage: Option<int>, perPage: Option<int>)
      requires perPage.None? || perPage.value > 0
      ensures currentPage == (if initialPage.Some? then initialPage.value else 1)
      ensures itemsPerPage == (if perPage.Some? then perPage.value else 10)
      ensures items == [] && totalItems == 0 && !loading && error == None
    {
      currentPage := if initialPage.Some? then initialPage.value else 1;
      itemsPerPage := if perPage.Some? then perPage.value else 10;
      items := [];
      totalItems := 0;
      loading := false;
      error := None;
    }

    /** `goToPage(page)`: moves only to an existing page. */
    method GoToPage(page: int)
      requires itemsPerPage > 0
      modifies this
      ensures 1 <= page <= old(TotalPages()) ==> currentPage == page
      ensures !(1 <= page <= old(TotalPages())) ==> currentPage == old(currentPage)
      ensures old(currentPage) >= 1 ==> currentPage >= 1
      ensures items == old(items) && totalItems == old(totalItems)
      ensures loading == old(loading) && error == old(error)
    {
      if page >= 1 && page <= TotalPages() {
        currentPage := page;
      }
    }

    /** `goToNextPage()`: one page on, unless this is the last page. */
    method GoToNextPage()
      requires itemsPerPage > 0
      modifies this
      ensures old(currentPage) < old(TotalPages()) ==> currentPage == old(currentPage) + 1
      ensures old(currentPage) >= old(TotalPages()) ==> currentPage == old(currentPage)
      ensures old(currentPage) >= 1 ==> currentPage >= 1
      ensures items == old(items) && totalItems == old(totalItems)
      ensures loading == old(loading) && error == old(error)
    {
      if currentPage < TotalPages() {
        currentPage := currentPage + 1;
      }
    }

    /** `goToPrevPage()`: one page back, unless this is the first page. */
    method GoToPrevPage()
      modifies this
      ensures old(currentPage) > 1 ==> currentPage == old(currentPage) - 1
      ensures old(currentPage) <= 1 ==> currentPage == old(currentPage)
      ensures old(currentPage) >= 1 ==> currentPage >= 1
      ensures items == old(items) && totalItems == old(totalItems)
      ensures loading == old(loading) && error == old(error)
    {
      if currentPage > 1 {
        currentPage := currentPage - 1;
      }
    }

    /** The first half of `fetchData(page)`: loading starts and the last error is cleared;
        the request asks for the given page at the hook's page size. */
    method BeginFetch(page: int) returns (request: (int, int))
      modifies this
      ensures loading && error == None
      ensures request == (page, itemsPerPage)
      ensures currentPage == old(currentPage) && items == old(items) && totalItems == old(totalItems)
    {
      loading := true;
      error := None;
      request := (page, itemsPerPage);
    }

    /** The second half of `fetchData`: a result replaces the items and the total, a failure
        keeps them and records its message; loading ends either way. */
    method FinishFetch(outcome: FetchOutcome<T>)
      modifies this
      ensures !loading
      ensures outcome.Loaded? ==> items == outcome.data && totalItems == outcome.total && error == old(error)
      ensures outcome.Failed? ==> items == old(items) && totalItems == old(totalItems)
                                  && error == Some(FetchErrorMessage(outcome.errorMessage))
      ensures currentPage == old(currentPage)
    {
      match outcome {
        case Loaded(data, total) =>
          items := data;
          totalItems := total;
        case Failed(message) =>
          error := Some(FetchErrorMessage(message));
      }
      loading := false;
    }
  }
}
