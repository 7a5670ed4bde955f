/**
 * The W-cut production table: the records the search box and the status
 * select keep, the page of them on show, and the colour of each status
 * chip.
 */
module WCutProductionPage {
  import opened Common
  import opened Text
  import opened JsValues

  datatype Bag = Bag(size: Value, gsm: Value, printColor: Value, color: Value)

  /**
   * One record of `getWcutOrders`. `jobName` and `status` are strings
   * when present; `bag` and the status are None when `bagDetails` or
   * `productionManager` is missing.
   */
  datatype ProductionRecord = ProductionRecord(orderId: Value, jobName: Option<string>, quantity: Value,
                                               fabricQuality: Value, bag: Option<Bag>, status: Option<string>)

  /**
   * The search: the job name contains the query ignoring case, or the
   * order id's text contains it exactly. A record without a job name and
   * without an order id matches nothing, not even the empty query.
   */
  predicate MatchesSearch(r: ProductionRecord, query: string) {
    || (r.jobName.Some? && ContainsIgnoreCase(r.jobName.value, query))
    || (!IsNullish(r.orderId) && Contains(Render(r.orderId), query))
  }

  /** The status select: the empty choice keeps every record, any other keeps exactly that status. */
  predicate MatchesStatus(r: ProductionRecord, statusFilter: string) {
    statusFilter == "" || r.status == Some(statusFilter)
  }

  predicate Keep(r: ProductionRecord, query: string, statusFilter: string) {
    MatchesSearch(r, query) && MatchesStatus(r, statusFilter)
  }

  /** `filteredRecords`. */
  function Filtered(rs: seq<ProductionRecord>, query: string, statusFilter: string): (r: seq<ProductionRecord>)
    ensures |r| <= |rs|
  {
    Filter(rs, x => Keep(x, query, statusFilter))
  }

  /** A record is listed exactly when it passes both tests, and the list keeps the records' order. */
  lemma FilteredMembers(rs: seq<ProductionRecord>, query: string, statusFilter: string)
    ensures forall x :: x in Filtered(rs, query, statusFilter) <==>
              x in rs && MatchesSearch(x, query) && MatchesStatus(x, statusFilter)
    ensures IsSubsequence(Filtered(rs, query, statusFilter), rs)
  {
    FilterMembers(rs, x => Keep(x, query, statusFilter));
    FilterSubsequence(rs, x => Keep(x, query, statusFilter));
  }

  /** With an empty search and no status chosen, exactly the records with a job name or an order id are listed. */
  lemma EmptySearchNeedsAName(rs: seq<ProductionRecord>)
    ensures forall x :: x in Filtered(rs, "", "") <==> x in rs && (x.jobName.Some? || !IsNullish(x.orderId))
  {
    FilteredMembers(rs, "", "");
    forall x: ProductionRecord
      ensures MatchesSearch(x, "") <==> x.jobName.Some? || !IsNullish(x.orderId)
    {
      if x.jobName.Some? {
        ContainsEmpty(ToLower(x.jobName.value));
      }
      if !IsNullish(x.orderId) {
        ContainsEmpty(Render(x.orderId));
      }
    }
  }

  /** The chip: success only for exactly `Completed`, warning only for exactly `Pending`. */
  function ChipColor(status: Option<string>): (c: Color)
    ensures c == Success <==> status == Some("Completed")
    ensures c == Warning <==> status == Some("Pending")
    ensures c == Default <==> status != Some("Completed") && status != Some("Pending")
  {
    if status == Some("Completed") then Success
    else if status == Some("Pending") then Warning
    else Default
  }

  /** The statuses the select offers besides "All Status". */
  const FilterStatuses := ["completed", "pending", "cancelled"]

  /**
   * The select offers lower-case statuses and the chip compares against
   * capitalised ones: every record a status choice lets through shows a
   * default chip.
   */
  lemma ChosenStatusChipIsDefault(rs: seq<ProductionRecord>, query: string, statusFilter: string, x: ProductionRecord)
    requires statusFilter in FilterStatuses
    requires x in Filtered(rs, query, statusFilter)
    ensures ChipColor(x.status) == Default
  {
    FilteredMembers(rs, query, statusFilter);
    assert x.status == Some(statusFilter);
  }

  /** A table row: order id, job name, bag size, GSM, quantity, print colour, fabric colour, fabric quality, status. */
  function RowCells(r: ProductionRecord): (cells: seq<string>)
    ensures |cells| == 9
    ensures cells[0] == TextOf(r.orderId) && cells[4] == TextOf(r.quantity)
    ensures cells[1] != "" && cells[2] != "" && cells[3] != "" && cells[5] != "" && cells[6] != ""
    ensures cells[7] != "" && cells[8] != ""
    ensures r.jobName.None? ==> cells[1] == "N/A"
    ensures r.bag.None? ==> cells[2] == "N/A" && cells[3] == "N/A" && cells[5] == "N/A" && cells[6] == "N/A"
    ensures r.status.None? ==> cells[8] == "N/A"
  {
    var b := r.bag.GetOr(Bag(Undefined, Undefined, Undefined, Undefined));
    [TextOf(r.orderId), OrText(r.jobName, "N/A"), OrNA(b.size), OrNA(b.gsm), TextOf(r.quantity),
     OrNA(b.printColor), OrNA(b.color), OrNA(r.fabricQuality), OrText(r.status, "N/A")]
  }

  /** `ProductionTable`'s list state. */
  class ProductionTable {
    var records: seq<ProductionRecord>
    var searchQuery: string
    var statusFilter: string
    var page: nat
    var rowsPerPage: nat

    constructor ()
      ensures records == [] && searchQuery == "" && statusFilter == "" && page == 0 && rowsPerPage == 5
    {
      records := [];
      searchQuery := "";
      statusFilter := "";
      page := 0;
      rowsPerPage := 5;
    }

    /** `filteredRecords`, which the pagination counts. */
    function Rows(): seq<ProductionRecord>
      reads this
    {
      Filtered(records, searchQuery, statusFilter)
    }

    /** The slice on show: at most a page of rows, in list order from `page * rowsPerPage`. */
    function Shown(): (r: seq<ProductionRecord>)
      reads this
      ensures IsPageOf(r, Rows(), page, rowsPerPage)
    {
      Page(Rows(), page, rowsPerPage)
    }

    /** The pagination's `count`. */
    function Count(): (n: nat)
      reads this
      ensures n == |Rows()| && n <= |records|
    {
      |Rows()|
    }

    /** `fetchRecords` succeeded: `response.data || []`. */
    method Loaded(data: Option<seq<ProductionRecord>>)
      modifies this
      ensures records == data.GetOr([])
      ensures searchQuery == old(searchQuery) && statusFilter == old(statusFilter)
      ensures page == old(page) && rowsPerPage == old(rowsPerPage)
    {
      records := data.GetOr([]);
    }

    /** `handleSearchChange`: a new query, back on the first page. */
    method Search(query: string)
      modifies this
      ensures searchQuery == query && page == 0
      ensures Shown() == Rows()[..Min(rowsPerPage, |Rows()|)]
      ensures records == old(records) && statusFilter == old(statusFilter) && rowsPerPage == old(rowsPerPage)
    {
      searchQuery := query;
      page := 0;
    }

    /** `handleStatusFilterChange`: a new status, back on the first page. */
    method FilterStatus(status: string)
      modifies this
      ensures statusFilter == status && page == 0
      ensures Shown() == Rows()[..Min(rowsPerPage, |Rows()|)]
      ensures records == old(records) && searchQuery == old(searchQuery) && rowsPerPage == old(rowsPerPage)
    {
      statusFilter := status;
      page := 0;
    }

    /** `handleChangePage`. */
    method ChangePage(newPage: nat)
      modifies this
      ensures page == newPage
      ensures records == old(records) && searchQuery == old(searchQuery) && statusFilter == old(statusFilter)
      ensures rowsPerPage == old(rowsPerPage)
    {
      page := newPage;
    }

    /** `handleChangeRowsPerPage`: a new page size, back on the first page. */
    method ChangeRowsPerPage(n: nat)
      modifies this
      ensures rowsPerPage == n && page == 0
      ensures Shown() == Rows()[..Min(rowsPerPage, |Rows()|)]
      ensures records == old(records) && searchQuery == old(searchQuery) && statusFilter == old(statusFilter)
    {
      rowsPerPage := n;
      page := 0;
    }
  }
}
