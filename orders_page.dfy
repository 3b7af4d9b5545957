/** The orders page loader: the stored orders narrowed by a search over order
    number, customer name and customer email, then by an exact status, with
    both query values echoed back. A query parameter is None when the URL does
    not carry it. */
module OrdersPage {
  import opened Seqs
  import opened Text
  import opened Records
  import opened OrderHelpers
  import opened DataProcessing

  datatype OrdersPageData = OrdersPageData(orders: seq<Order>, search: string, statusFilter: string)

  /** url.searchParams.get(name) || ''. */
  function QueryValue(param: Option<string>): (v: string)
    ensures param.None? ==> v == ""
    ensures param.Some? ==> v == param.value
  {
    match param
    case None => ""
    case Some(s) => if s == "" then "" else s
  }

  /** The search step: applied only for a non-empty search value. */
  function SearchStage(orders: seq<Order>, search: string): (r: seq<Order>)
    ensures IsSubsequence(r, orders)
    ensures search == "" ==> r == orders
    ensures search != "" ==> forall i :: 0 <= i < |r| ==> OrderMatches(r[i], Lower(search))
    ensures forall i :: 0 <= i < |orders| && (search == "" || OrderMatches(orders[i], Lower(search))) ==>
                          orders[i] in r
    ensures forall x | x in orders ::
              multiset(r)[x] == if search == "" || OrderMatches(x, Lower(search)) then multiset(orders)[x] else 0
  {
    SubsequenceReflexive(orders);
    if search != "" then OrdersMatching(orders, Lower(search)) else orders
  }

  /** The status step: an exact, case-sensitive match, applied only for a
      non-empty status value. */
  function StatusStage(orders: seq<Order>, statusFilter: string): (r: seq<Order>)
    ensures IsSubsequence(r, orders)
    ensures statusFilter == "" ==> r == orders
    ensures statusFilter != "" ==> forall i :: 0 <= i < |r| ==> r[i].status == statusFilter
    ensures forall x :: x in orders && (statusFilter == "" || x.status == statusFilter) ==> x in r
    ensures forall x | x in orders ::
              multiset(r)[x] == if statusFilter == "" || x.status == statusFilter then multiset(orders)[x] else 0
  {
    SubsequenceReflexive(orders);
    if statusFilter != "" then
      FilterMultiplicity(orders, HasStatus(statusFilter));
      Filter(orders, HasStatus(statusFilter))
    else orders
  }

  function Load(stored: seq<Order>, searchParam: Option<string>, statusParam: Option<string>)
    : (d: OrdersPageData)
    ensures d.search == QueryValue(searchParam) && d.statusFilter == QueryValue(statusParam)
    ensures IsSubsequence(d.orders, stored)
    ensures d.search == "" && d.statusFilter == "" ==> d.orders == stored
    ensures d.search != "" ==> forall i :: 0 <= i < |d.orders| ==> OrderMatches(d.orders[i], Lower(d.search))
    ensures d.statusFilter != "" ==> forall i :: 0 <= i < |d.orders| ==> d.orders[i].status == d.statusFilter
    ensures forall i :: 0 <= i < |stored| && (d.search == "" || OrderMatches(stored[i], Lower(d.search)))
                        && (d.statusFilter == "" || stored[i].status == d.statusFilter) ==>
                          stored[i] in d.orders
    ensures forall x | x in stored ::
              multiset(d.orders)[x] ==
                if (d.search == "" || OrderMatches(x, Lower(d.search)))
                   && (d.statusFilter == "" || x.status == d.statusFilter)
                then multiset(stored)[x] else 0
  {
    var search := QueryValue(searchParam);
    var statusFilter := QueryValue(statusParam);
    var afterSearch := SearchStage(stored, search);
    var afterStatus := StatusStage(afterSearch, statusFilter);
    SubsequenceTransitive(afterStatus, afterSearch, stored);
    SubsequenceMembers(afterStatus, afterSearch);
    SubsequenceMembers(afterSearch, stored);
    OrdersPageData(afterStatus, search, statusFilter)
  }

  /** With no status filter and a search that is not blank, the page shows what
      searchOrders returns; a whitespace-only search is still applied as a filter
      here, whereas searchOrders would return every order. */
  lemma SearchAgreesWithSearchOrders(stored: seq<Order>, search: string)
    requires !AllWhitespace(search)
    ensures Load(stored, Some(search), None).orders == SearchOrders(stored, search)
  {
    TrimEmptyIff(search);
  }
}
