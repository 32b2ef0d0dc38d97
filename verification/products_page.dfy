/** The catalogue page's state: the active category, the search term and
    the page number, the request they produce, and the paging controls. */
module ProductsPage {
  import opened Js

  const PerPage: int := 12

  /** The `params` sent with each fetch; a `None` field is left out. */
  datatype Params = Params(page: int, category: Option<string>, search: Option<string>, perPage: int)

  /** What the paging controls read from the products slice. */
  datatype PageInfo = PageInfo(page: int, totalPages: int, hasPreviousPage: bool, hasNextPage: bool)

  /** `{ page, category: activeCategory || undefined, search: searchTerm || undefined, perPage: 12 }` */
  function RequestParams(page: int, activeCategory: Option<string>, searchTerm: string): (p: Params)
    ensures p.page == page && p.perPage == 12
    ensures p.category.Some? <==> activeCategory.Some? && activeCategory.value != ""
    ensures p.category.Some? ==> p.category == activeCategory
    ensures p.search.Some? <==> searchTerm != ""
    ensures p.search.Some? ==> p.search.value == searchTerm
  {
    Params(page,
           if activeCategory.Some? && activeCategory.value != "" then activeCategory else None,
           if searchTerm != "" then Some(searchTerm) else None,
           PerPage)
  }

  /** The paging controls are shown only once loading is over (a loader
      replaces the whole grid while `isLoading`) and with more than one page. */
  predicate PagingShown(info: PageInfo, isLoading: bool) {
    !isLoading && info.totalPages > 1
  }

  class CatalogueState {
    var activeCategory: Option<string>
    var searchTerm: string
    var page: int

    constructor ()
      ensures activeCategory == None && searchTerm == "" && page == 1
    {
      activeCategory := None;
      searchTerm := "";
      page := 1;
    }

    function Params(): Params
      reads this
    {
      RequestParams(page, activeCategory, searchTerm)
    }

    /** `handleCategoryChange` */
    method HandleCategoryChange(catId: Option<string>)
      modifies this
      ensures activeCategory == catId && page == 1 && searchTerm == old(searchTerm)
    {
      activeCategory := catId;
      page := 1;
    }

    /** `handleSearchChange` */
    method HandleSearchChange(term: string)
      modifies this
      ensures searchTerm == term && page == 1 && activeCategory == old(activeCategory)
    {
      searchTerm := term;
      page := 1;
    }

    /** A click on "previous": only a shown and enabled button acts (there is
        no button to click while loading or with a single page), and it
        steps the page's own counter down by one. */
    method ClickPrevious(info: PageInfo, isLoading: bool)
      modifies this
      ensures page == (if PagingShown(info, isLoading) && info.hasPreviousPage then old(page) - 1 else old(page))
      ensures activeCategory == old(activeCategory) && searchTerm == old(searchTerm)
    {
      if PagingShown(info, isLoading) && info.hasPreviousPage {
        page := page - 1;
      }
    }

    /** A click on "next": the same, one page up. */
    method ClickNext(info: PageInfo, isLoading: bool)
      modifies this
      ensures page == (if PagingShown(info, isLoading) && info.hasNextPage then old(page) + 1 else old(page))
      ensures activeCategory == old(activeCategory) && searchTerm == old(searchTerm)
    {
      if PagingShown(info, isLoading) && info.hasNextPage {
        page := page + 1;
      }
    }
  }

  /** Choosing the empty category or clearing the search drops that filter
      from the request altogether. */
  lemma EmptyFiltersOmitted(page: int)
    ensures RequestParams(page, Some(""), "") == Params(page, None, None, 12)
    ensures RequestParams(page, None, "") == RequestParams(page, Some(""), "")
  {
  }
}
