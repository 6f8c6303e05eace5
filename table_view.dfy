/**
 * Pagination and column sorting of the two tables in renderer.js: the page arithmetic of
 * renderTable and renderStatsTable, and the click handlers that move between pages and
 * choose the sort column.
 */
module TableView {

  const RowsPerPage := 50

  /** `Math.ceil(n / 50) || 1`: enough pages for every row, and one page for no rows. */
  function TotalPages(n: nat): (r: nat)
    ensures r >= 1
    ensures n == 0 ==> r == 1
    ensures n > 0 ==> (r - 1) * RowsPerPage < n <= r * RowsPerPage
  {
    if n == 0 then 1 else (n + RowsPerPage - 1) / RowsPerPage
  }

  /** The current page pulled back into 1..totalPages. */
  function ClampPage(page: int, totalPages: nat): (r: int)
    requires totalPages >= 1
    ensures 1 <= r <= totalPages
    ensures 1 <= page <= totalPages ==> r == page
    ensures page > totalPages ==> r == totalPages
    ensures page < 1 ==> r == 1
  {
    var p := if page > totalPages then totalPages else page;
    if p < 1 then 1 else p
  }

  /** `rows.slice((page - 1) * 50, page * 50)`: the rows shown on a page. */
  function PageSlice<T>(rows: seq<T>, page: int): (r: seq<T>)
    requires page >= 1
    ensures |r| <= RowsPerPage
    ensures (page - 1) * RowsPerPage < |rows| ==> |r| == if |rows| < page * RowsPerPage then |rows| - (page - 1) * RowsPerPage else RowsPerPage
    ensures (page - 1) * RowsPerPage >= |rows| ==> r == []
    ensures forall i :: 0 <= i < |r| ==> r[i] == rows[(page - 1) * RowsPerPage + i]
  {
    var start := (page - 1) * RowsPerPage;
    var end := start + RowsPerPage;
    if start >= |rows| then [] else rows[start..if end < |rows| then end else |rows|]
  }

  /** Pages 1 to k shown one after another. */
  function PagesUpTo<T>(rows: seq<T>, k: nat): seq<T> {
    if k == 0 then [] else PagesUpTo(rows, k - 1) + PageSlice(rows, k)
  }

  lemma {:induction false} PagesUpToPrefix<T>(rows: seq<T>, k: nat)
    ensures PagesUpTo(rows, k) == rows[..if k * RowsPerPage < |rows| then k * RowsPerPage else |rows|]
  {
    if k > 0 {
      PagesUpToPrefix(rows, k - 1);
    }
  }

  /** Paging through every page shows each row exactly once, in order. */
  lemma PagesCoverRows<T>(rows: seq<T>)
    ensures PagesUpTo(rows, TotalPages(|rows|)) == rows
  {
    PagesUpToPrefix(rows, TotalPages(|rows|));
  }

  /** On a page within range there is something to show whenever there are rows. */
  lemma ClampedPageNotEmpty<T>(rows: seq<T>, page: int)
    requires |rows| > 0
    ensures PageSlice(rows, ClampPage(page, TotalPages(|rows|))) != []
  {
  }

  /** The "previous" button: back one page, but never below page 1. */
  function PrevPage(page: int): (r: int)
    ensures page > 1 ==> r == page - 1
    ensures page <= 1 ==> r == page
    ensures page >= 1 ==> r >= 1
  {
    if page > 1 then page - 1 else page
  }

  /** Which column a table is sorted by, and in which direction. */
  datatype SortOrder = SortOrder(column: string, ascending: bool)

  /** A header click: the same column flips the direction, another column sorts ascending by it. */
  function Toggle(s: SortOrder, col: string): (r: SortOrder)
    ensures r.column == col
    ensures s.column == col ==> r.ascending == !s.ascending
    ensures s.column != col ==> r.ascending
  {
    if s.column == col then s.(ascending := !s.ascending) else SortOrder(col, true)
  }

  /** Two clicks on the sorted column restore the order; on another column they leave it descending. */
  lemma ToggleTwice(s: SortOrder, col: string)
    ensures Toggle(Toggle(s, col), col) == if s.column == col then s else SortOrder(col, false)
  {
  }

  /** The page and sort state the renderer keeps for its two tables. */
  class ViewState {
    var pagePlays: int
    var pageStats: int
    var playsSort: SortOrder
    var statsSort: SortOrder

    /** Both current pages are at least 1, whatever the sequence of clicks. */
    predicate Valid()
      reads this
    {
      pagePlays >= 1 && pageStats >= 1
    }

    constructor ()
      ensures Valid()
      ensures pagePlays == 1 && pageStats == 1
      ensures playsSort == SortOrder("startTime", false) && statsSort == SortOrder("plays", false)
    {
      pagePlays := 1;
      pageStats := 1;
      playsSort := SortOrder("startTime", false);
      statsSort := SortOrder("plays", false);
    }

    /** New data from the main process: both tables go back to page 1. */
    method OnUpdateData()
      modifies this`pagePlays, this`pageStats
      ensures Valid() && pagePlays == 1 && pageStats == 1
    {
      pagePlays := 1;
      pageStats := 1;
    }

    /** Typing in the search box: the plays table goes back to page 1. */
    method OnSearch()
      requires Valid()
      modifies this`pagePlays
      ensures Valid() && pagePlays == 1
    {
      pagePlays := 1;
    }

    method PrevPlays()
      requires Valid()
      modifies this`pagePlays
      ensures Valid() && pagePlays == PrevPage(old(pagePlays))
    {
      if pagePlays > 1 {
        pagePlays := pagePlays - 1;
      }
    }

    method NextPlays()
      requires Valid()
      modifies this`pagePlays
      ensures Valid() && pagePlays == old(pagePlays) + 1
    {
      pagePlays := pagePlays + 1;
    }

    method PrevStats()
      requires Valid()
      modifies this`pageStats
      ensures Valid() && pageStats == PrevPage(old(pageStats))
    {
      if pageStats > 1 {
        pageStats := pageStats - 1;
      }
    }

    method NextStats()
      requires Valid()
      modifies this`pageStats
      ensures Valid() && pageStats == old(pageStats) + 1
    {
      pageStats := pageStats + 1;
    }

    /** A click on a column header of the plays or stats table; headers without a column do nothing. */
    method ClickHeader(table: string, col: string)
      requires Valid()
      modifies this`playsSort, this`statsSort
      ensures Valid()
      ensures col != "" && table == "plays" ==> playsSort == Toggle(old(playsSort), col) && statsSort == old(statsSort)
      ensures col != "" && table == "stats" ==> statsSort == Toggle(old(statsSort), col) && playsSort == old(playsSort)
      ensures col == "" || (table != "plays" && table != "stats") ==> playsSort == old(playsSort) && statsSort == old(statsSort)
    {
      if col == "" {
        return;
      }
      if table == "plays" {
        playsSort := Toggle(playsSort, col);
      } else if table == "stats" {
        statsSort := Toggle(statsSort, col);
      }
    }

    /**
     * The pagination step of renderTable over the filtered, sorted plays: clamp the current
     * page into range and cut out its rows.
     */
    method RenderPlaysPage<T>(filtered: seq<T>) returns (visible: seq<T>, totalPages: nat)
      modifies this`pagePlays
      ensures 1 <= pagePlays
      ensures totalPages == TotalPages(|filtered|)
      ensures pagePlays == ClampPage(old(pagePlays), totalPages)
      ensures visible == PageSlice(filtered, pagePlays)
    {
      totalPages := TotalPages(|filtered|);
      if pagePlays > totalPages {
        pagePlays := totalPages;
      }
      if pagePlays < 1 {
        pagePlays := 1;
      }
      visible := PageSlice(filtered, pagePlays);
    }

    /** The same pagination step of renderStatsTable over the grouped rows. */
    method RenderStatsPage<T>(rows: seq<T>) returns (visible: seq<T>, totalPages: nat)
      modifies this`pageStats
      ensures 1 <= pageStats
      ensures totalPages == TotalPages(|rows|)
      ensures pageStats == ClampPage(old(pageStats), totalPages)
      ensures visible == PageSlice(rows, pageStats)
    {
      totalPages := TotalPages(|rows|);
      if pageStats > totalPages {
        pageStats := totalPages;
      }
      if pageStats < 1 {
        pageStats := 1;
      }
      visible := PageSlice(rows, pageStats);
    }
  }
}
