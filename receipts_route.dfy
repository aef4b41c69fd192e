/** `GET /api/receipts`: a representative's receipt listing, filtered,
    newest first, one page of it, with the company's per-status totals. */
module ReceiptsRoute {
  import opened Base
  import opened Arrays
  import opened Types
  import opened Auth
  import opened Store
  import opened Api
  import opened ReceiptOrder
  import opened ReceiptQuery

  datatype Pagination = Pagination(
    page: int,
    limit: int,
    total: nat,
    totalPages: PageCount,
    hasNext: bool,
    hasPrev: bool)

  datatype ReceiptListing = ReceiptListing(
    receipts: seq<ListedReceipt>,
    pagination: Pagination,
    stats: Stats)

  /** The handler's successive filters: each filter the query supplies is
      applied in turn, in the handler's order, to what the previous ones
      left. The result is exactly the receipts that satisfy the query, in
      their original order. */
  method ApplyFilters(company: seq<Receipt>, q: Query) returns (receipts: seq<Receipt>)
    ensures receipts == Filter(company, MatchesQuery(q))
    ensures IsSubsequence(receipts, company)
  {
    receipts := company;
    FirstFiltersEnds(company, q);
    if FiltersStatus(q) {
      receipts := Filter(receipts, StatusIs(q.status.value));
    }
    StatusStep(company, q);
    if q.startDate != NoBound {
      receipts := Filter(receipts, OnOrAfter(q.startDate));
    }
    StartStep(company, q);
    if q.endDate != NoBound {
      receipts := Filter(receipts, OnOrBefore(q.endDate));
    }
    EndStep(company, q);
    if q.minAmount != NoBound {
      receipts := Filter(receipts, AtLeast(q.minAmount));
    }
    MinStep(company, q);
    if q.maxAmount != NoBound {
      receipts := Filter(receipts, AtMost(q.maxAmount));
    }
    MaxStep(company, q);
    if Present(q.search) {
      receipts := Filter(receipts, Searched(q.search.value));
    }
    SearchStep(company, q);
    FilterIsSubsequence(company, MatchesQuery(q));
  }

  /** The handler, with `verify` standing for the token helper. After the
      representative guards, the company's receipts go through the filters
      the query supplies, one after the other, and are sorted newest first;
      the result is exactly the company's receipts that satisfy the query,
      newest first, and the reply carries one page of it. The totals ignore
      the filters. */
  method ListReceipts(store: DataStore, token: Option<Token>, q: Query, verify: Token -> Option<Claims>)
    returns (r: Reply<ReceiptListing>)
    ensures RepresentativeClaims(token, verify).Stop? ==>
      r == Failure(RepresentativeClaims(token, verify).status, RepresentativeClaims(token, verify).error)
    ensures RepresentativeClaims(token, verify).Pass? &&
            CallerCompany(store, RepresentativeClaims(token, verify).value.userId).Stop? ==>
      r == Failure(404, "User or company not found")
    ensures r.Success? <==>
      RepresentativeClaims(token, verify).Pass? &&
      CallerCompany(store, RepresentativeClaims(token, verify).value.userId).Pass?
    ensures r.Success? ==>
      var cid := CallerCompany(store, RepresentativeClaims(token, verify).value.userId).value.1;
      var company := store.ReceiptsByCompany(cid);
      var selected := SortNewestFirst(Filter(company, MatchesQuery(q)));
      && r.status == 200
      && r.body.receipts == WithUsers(Paginate(selected, q.page, q.limit), store.appUsers)
      && (forall i :: 0 <= i < |r.body.receipts| ==>
            var x := r.body.receipts[i].receipt;
            x in store.receipts && x.companyId == cid && Matches(q, x))
      && NewestFirst(Paginate(selected, q.page, q.limit))
      && r.body.pagination == Pagination(q.page, q.limit, |selected|, TotalPages(|selected|, q.limit),
                                         HasNext(q.page, TotalPages(|selected|, q.limit)), q.page > 1)
      && r.body.stats == StatsOf(company)
  {
    var claims := RepresentativeClaims(token, verify);
    if claims.Stop? {
      return Failure(claims.status, claims.error);
    }
    var caller := CallerCompany(store, claims.value.userId);
    if caller.Stop? {
      return Failure(caller.status, caller.error);
    }
    var cid := caller.value.1;
    var receipts := store.ReceiptsByCompany(cid);
    receipts := ApplyFilters(receipts, q);
    ghost var filtered := receipts;

    receipts := SortNewestFirst(receipts);
    SortSortedPermutation(filtered);
    PageKeepsOrder(receipts, q.page, q.limit);
    PageMembers(receipts, q.page, q.limit);

    var total := |receipts|;
    var totalPages := TotalPages(total, q.limit);
    var page := Paginate(receipts, q.page, q.limit);
    forall i | 0 <= i < |page| ensures page[i] in store.receipts && page[i].companyId == cid && Matches(q, page[i]) {
      assert page[i] in multiset(receipts);
      assert page[i] in filtered;
    }
    r := Success(200, ReceiptListing(
      WithUsers(page, store.appUsers),
      Pagination(q.page, q.limit, total, totalPages, HasNext(q.page, totalPages), q.page > 1),
      StatsOf(store.ReceiptsByCompany(cid))));
  }
}
