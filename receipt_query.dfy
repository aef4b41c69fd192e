/** The receipt listing's query: the filters a request may supply, the page
    it asks for, the page counts reported beside it, the per-status totals,
    and the staff name and email attached to each listed receipt. */
module ReceiptQuery {
  import opened Base
  import opened Arrays
  import opened Types
  import opened ReceiptOrder

  /** A date or amount query parameter: absent or empty; a value (a
      timestamp, or an amount in cents); or text that does not parse, which
      makes every comparison with it false, as comparing with `NaN` does. */
  datatype Bound = NoBound | At(value: int) | Unparsable

  /** The query string of a listing request. `page` and `limit` are the
      results of `parseInt` (1 and 10 when the parameters are absent). */
  datatype Query = Query(
    status: Option<string>,
    startDate: Bound,
    endDate: Bound,
    minAmount: Bound,
    maxAmount: Bound,
    search: Option<string>,
    page: int,
    limit: int)

  /** The date a receipt is filtered by: its receipt date, or else its
      creation time. */
  function EffectiveDate(r: Receipt): int {
    if r.receiptDate.Some? then r.receiptDate.value else r.createdAt
  }

  /** The amount a receipt is filtered by; a missing amount counts as 0. */
  function AmountOrZero(r: Receipt): int {
    if r.amount.Some? then r.amount.value else 0
  }

  /** An absent status and the status `all` filter nothing. */
  predicate FiltersStatus(q: Query) {
    Present(q.status) && q.status.value != "all"
  }

  /** `field?.toLowerCase().includes(term.toLowerCase())`: false for a missing field. */
  predicate Mentions(field: Option<string>, term: string) {
    field.Some? && Includes(Lower(field.value), Lower(term))
  }

  /** The text search: the merchant, the notes or the category mentions the term. */
  predicate MatchesSearch(r: Receipt, term: string) {
    Mentions(r.merchantName, term) || Mentions(r.notes, term) || Mentions(r.category, term)
  }

  /** What it means for a receipt to satisfy a query: every filter the query
      supplies holds of it, the date bounds inclusive. */
  predicate Matches(q: Query, r: Receipt) {
    && (FiltersStatus(q) ==> ReceiptStatusName(r.status) == q.status.value)
    && (q.startDate != NoBound ==> q.startDate.At? && EffectiveDate(r) >= q.startDate.value)
    && (q.endDate != NoBound ==> q.endDate.At? && EffectiveDate(r) <= q.endDate.value)
    && (q.minAmount != NoBound ==> q.minAmount.At? && AmountOrZero(r) >= q.minAmount.value)
    && (q.maxAmount != NoBound ==> q.maxAmount.At? && AmountOrZero(r) <= q.maxAmount.value)
    && (Present(q.search) ==> MatchesSearch(r, q.search.value))
  }

  // The callbacks of the handler's six successive filters.

  function StatusIs(status: string): Receipt -> bool {
    (r: Receipt) => ReceiptStatusName(r.status) == status
  }
  function OnOrAfter(b: Bound): Receipt -> bool {
    (r: Receipt) => b.At? && EffectiveDate(r) >= b.value
  }
  function OnOrBefore(b: Bound): Receipt -> bool {
    (r: Receipt) => b.At? && EffectiveDate(r) <= b.value
  }
  function AtLeast(b: Bound): Receipt -> bool {
    (r: Receipt) => b.At? && AmountOrZero(r) >= b.value
  }
  function AtMost(b: Bound): Receipt -> bool {
    (r: Receipt) => b.At? && AmountOrZero(r) <= b.value
  }
  function Searched(term: string): Receipt -> bool {
    (r: Receipt) => MatchesSearch(r, term)
  }

  /** The first `n` of the six filters as one callback; `Matches` is all six. */
  function FirstFilters(q: Query, n: nat): Receipt -> bool {
    (r: Receipt) =>
      && (n < 1 || !FiltersStatus(q) || StatusIs(q.status.value)(r))
      && (n < 2 || q.startDate == NoBound || OnOrAfter(q.startDate)(r))
      && (n < 3 || q.endDate == NoBound || OnOrBefore(q.endDate)(r))
      && (n < 4 || q.minAmount == NoBound || AtLeast(q.minAmount)(r))
      && (n < 5 || q.maxAmount == NoBound || AtMost(q.maxAmount)(r))
      && (n < 6 || !Present(q.search) || Searched(q.search.value)(r))
  }

  function MatchesQuery(q: Query): Receipt -> bool {
    (r: Receipt) => Matches(q, r)
  }

  /** One more filter step: applying the next filter, when the query supplies
      it, to the result of the first `n` filters gives the result of the first
      `n + 1`. */
  lemma FilterOn(s: seq<Receipt>, q: Query, n: nat, step: Receipt -> bool)
    requires forall r :: FirstFilters(q, n + 1)(r) == (FirstFilters(q, n)(r) && step(r))
    ensures Filter(Filter(s, FirstFilters(q, n)), step) == Filter(s, FirstFilters(q, n + 1))
  {
    FilterFilter(s, FirstFilters(q, n), step);
    FilterSame(s, Both(FirstFilters(q, n), step), FirstFilters(q, n + 1));
  }

  /** A filter the query does not supply is skipped, and skipping it changes
      nothing. */
  lemma FilterOff(s: seq<Receipt>, q: Query, n: nat)
    requires forall r :: FirstFilters(q, n + 1)(r) == FirstFilters(q, n)(r)
    ensures Filter(s, FirstFilters(q, n)) == Filter(s, FirstFilters(q, n + 1))
  {
    FilterSame(s, FirstFilters(q, n), FirstFilters(q, n + 1));
  }

  // The six steps, one lemma each: after step `n + 1` the handler holds the
  // result of the first `n + 1` filters.

  lemma StatusStep(s: seq<Receipt>, q: Query)
    ensures FiltersStatus(q) ==>
      Filter(Filter(s, FirstFilters(q, 0)), StatusIs(q.status.value)) == Filter(s, FirstFilters(q, 1))
    ensures !FiltersStatus(q) ==> Filter(s, FirstFilters(q, 0)) == Filter(s, FirstFilters(q, 1))
  {
    if FiltersStatus(q) { FilterOn(s, q, 0, StatusIs(q.status.value)); } else { FilterOff(s, q, 0); }
  }

  lemma StartStep(s: seq<Receipt>, q: Query)
    ensures q.startDate != NoBound ==>
      Filter(Filter(s, FirstFilters(q, 1)), OnOrAfter(q.startDate)) == Filter(s, FirstFilters(q, 2))
    ensures q.startDate == NoBound ==> Filter(s, FirstFilters(q, 1)) == Filter(s, FirstFilters(q, 2))
  {
    if q.startDate != NoBound { FilterOn(s, q, 1, OnOrAfter(q.startDate)); } else { FilterOff(s, q, 1); }
  }

  lemma EndStep(s: seq<Receipt>, q: Query)
    ensures q.endDate != NoBound ==>
      Filter(Filter(s, FirstFilters(q, 2)), OnOrBefore(q.endDate)) == Filter(s, FirstFilters(q, 3))
    ensures q.endDate == NoBound ==> Filter(s, FirstFilters(q, 2)) == Filter(s, FirstFilters(q, 3))
  {
    if q.endDate != NoBound { FilterOn(s, q, 2, OnOrBefore(q.endDate)); } else { FilterOff(s, q, 2); }
  }

  lemma MinStep(s: seq<Receipt>, q: Query)
    ensures q.minAmount != NoBound ==>
      Filter(Filter(s, FirstFilters(q, 3)), AtLeast(q.minAmount)) == Filter(s, FirstFilters(q, 4))
    ensures q.minAmount == NoBound ==> Filter(s, FirstFilters(q, 3)) == Filter(s, FirstFilters(q, 4))
  {
    if q.minAmount != NoBound { FilterOn(s, q, 3, AtLeast(q.minAmount)); } else { FilterOff(s, q, 3); }
  }

  lemma MaxStep(s: seq<Receipt>, q: Query)
    ensures q.maxAmount != NoBound ==>
      Filter(Filter(s, FirstFilters(q, 4)), AtMost(q.maxAmount)) == Filter(s, FirstFilters(q, 5))
    ensures q.maxAmount == NoBound ==> Filter(s, FirstFilters(q, 4)) == Filter(s, FirstFilters(q, 5))
  {
    if q.maxAmount != NoBound { FilterOn(s, q, 4, AtMost(q.maxAmount)); } else { FilterOff(s, q, 4); }
  }

  lemma SearchStep(s: seq<Receipt>, q: Query)
    ensures Present(q.search) ==>
      Filter(Filter(s, FirstFilters(q, 5)), Searched(q.search.value)) == Filter(s, FirstFilters(q, 6))
    ensures !Present(q.search) ==> Filter(s, FirstFilters(q, 5)) == Filter(s, FirstFilters(q, 6))
  {
    if Present(q.search) { FilterOn(s, q, 5, Searched(q.search.value)); } else { FilterOff(s, q, 5); }
  }

  /** No filter at all keeps everything, and all six are `Matches`. */
  lemma FirstFiltersEnds(s: seq<Receipt>, q: Query)
    ensures Filter(s, FirstFilters(q, 0)) == s
    ensures Filter(s, FirstFilters(q, 6)) == Filter(s, MatchesQuery(q))
  {
    FilterAll(s, FirstFilters(q, 0));
    forall k | 0 <= k < |s| ensures FirstFilters(q, 6)(s[k]) == MatchesQuery(q)(s[k]) {
      var r := s[k];
      assert MatchesQuery(q)(r) == Matches(q, r);
      assert FirstFilters(q, 6)(r) == (
        && (!FiltersStatus(q) || StatusIs(q.status.value)(r))
        && (q.startDate == NoBound || OnOrAfter(q.startDate)(r))
        && (q.endDate == NoBound || OnOrBefore(q.endDate)(r))
        && (q.minAmount == NoBound || AtLeast(q.minAmount)(r))
        && (q.maxAmount == NoBound || AtMost(q.maxAmount)(r))
        && (!Present(q.search) || Searched(q.search.value)(r)));
    }
    FilterSame(s, FirstFilters(q, 6), MatchesQuery(q));
  }

  /** The page count `Math.ceil(total / limit)`: a whole number for a
      non-zero limit, `Infinity` for a zero limit and some receipts, `NaN` for
      a zero limit and none. */
  datatype PageCount = Pages(n: int) | Infinite | NotANumber

  function TotalPages(total: nat, limit: int): (c: PageCount)
    ensures limit != 0 <==> c.Pages?
    ensures limit == 0 && total == 0 ==> c == NotANumber
    ensures limit == 0 && total > 0 ==> c == Infinite
  {
    if limit > 0 then Pages((total + limit - 1) / limit)
    else if limit < 0 then Pages(-(total / -limit))
    else if total == 0 then NotANumber
    else Infinite
  }

  /** `page < totalPages`. */
  predicate HasNext(page: int, c: PageCount) {
    match c
    case Pages(n) => page < n
    case Infinite => true
    case NotANumber => false
  }

  /** For a positive limit the page count is the ceiling of `total / limit`:
      the fewest pages of `limit` receipts that hold them all. */
  lemma {:induction false} TotalPagesIsCeiling(total: nat, limit: int)
    requires limit > 0
    ensures var n := TotalPages(total, limit).n;
      n >= 0 && (n - 1) * limit < total <= n * limit
  {
    var n := (total + limit - 1) / limit;
    var m := (total + limit - 1) % limit;
    assert total + limit - 1 == n * limit + m;
    assert (n - 1) * limit == n * limit - limit;
  }

  /** For a positive limit there is a next page exactly when the receipts
      before the following page do not exhaust the total. */
  lemma {:induction false} HasNextIff(page: int, total: nat, limit: int)
    requires limit > 0
    ensures HasNext(page, TotalPages(total, limit)) <==> page * limit < total
  {
    var n := TotalPages(total, limit).n;
    TotalPagesIsCeiling(total, limit);
    if page < n {
      MultiplyMonotone(page, n - 1, limit);
    } else {
      MultiplyMonotone(n, page, limit);
    }
  }

  /** The receipts on page `page` of `limit`: `s.slice(start, start + limit)`
      with `start = (page - 1) * limit`. */
  function Paginate<T>(s: seq<T>, page: int, limit: int): (r: seq<T>)
    ensures |r| <= |s|
  {
    JsSlice(s, (page - 1) * limit, (page - 1) * limit + limit)
  }

  /** For page and limit at least 1, a page holds the receipts from
      `(page - 1) * limit` on, at most `limit` of them, and a page that starts
      beyond the end is empty. */
  lemma {:induction false} PageContents<T>(s: seq<T>, page: int, limit: int)
    requires page >= 1 && limit >= 1
    ensures var start := (page - 1) * limit;
      && |Paginate(s, page, limit)| <= limit
      && (start >= |s| ==> Paginate(s, page, limit) == [])
      && (start < |s| ==>
            Paginate(s, page, limit) == s[start..if start + limit <= |s| then start + limit else |s|])
  {
    MultiplyMonotone(0, page - 1, limit);
  }

  /** Position `r` of page `q + 1` is position `q * limit + r` of the list. */
  lemma {:induction false} PagePosition<T>(s: seq<T>, q: nat, r: int, limit: int)
    requires limit >= 1 && 0 <= r < limit && q * limit + r < |s|
    ensures var page := Paginate(s, q + 1, limit);
      r < |page| && page[r] == s[q * limit + r]
  {
    var start := q * limit;
    assert (q + 1 - 1) * limit == start;
    PageContents(s, q + 1, limit);
  }

  /** Pages partition the list: the receipt at position `i` is on page
      `i / limit + 1`, at position `i % limit`. */
  lemma {:induction false} EveryReceiptOnItsPage<T>(s: seq<T>, i: int, limit: int)
    requires 0 <= i < |s| && limit >= 1
    ensures var page := Paginate(s, i / limit + 1, limit);
      i % limit < |page| && page[i % limit] == s[i]
  {
    var q, r := i / limit, i % limit;
    assert q * limit + r == i;
    PagePosition(s, q, r, limit);
  }

  /** A page holds receipts of the list it was cut from. */
  lemma PageMembers<T>(s: seq<T>, page: int, limit: int)
    ensures forall k :: 0 <= k < |Paginate(s, page, limit)| ==> Paginate(s, page, limit)[k] in s
  {
  }

  /** A page of a newest-first list is newest first. */
  lemma PageKeepsOrder(s: seq<Receipt>, page: int, limit: int)
    requires NewestFirst(s)
    ensures NewestFirst(Paginate(s, page, limit))
  {
  }

  /** Page 0 is empty, but page -1 is not: a negative start counts from the
      end of the list, so page -1 shows the `limit` receipts before the last
      `limit`. */
  lemma NonPositivePages<T>(s: seq<T>, limit: int)
    requires limit >= 1
    ensures Paginate(s, 0, limit) == []
    ensures 2 * limit <= |s| ==> Paginate(s, -1, limit) == s[|s| - 2 * limit .. |s| - limit]
  {
  }

  /** The per-status totals over all of a company's receipts. */
  datatype Stats = Stats(total: nat, pending: nat, processed: nat, sent: nat)

  function HasStatus(s: ReceiptStatus): Receipt -> bool { (r: Receipt) => r.status == s }

  function StatsOf(rs: seq<Receipt>): Stats {
    Stats(|rs|, Count(rs, HasStatus(Pending)), Count(rs, HasStatus(Processed)), Count(rs, HasStatus(Sent)))
  }

  /** Every receipt has exactly one of the three statuses, so the totals add up. */
  lemma {:induction false} StatsAddUp(rs: seq<Receipt>)
    ensures StatsOf(rs).total == StatsOf(rs).pending + StatsOf(rs).processed + StatsOf(rs).sent
    decreases |rs|
  {
    if rs != [] {
      StatsAddUp(rs[1..]);
    }
  }

  /** A listed receipt with its submitter's name and email. */
  datatype ListedReceipt = ListedReceipt(receipt: Receipt, userName: string, userEmail: string)

  /** The staff member who submitted `r`, looked up among all staff of every
      company: its name, or "Unknown User" when there is none or its name is
      empty, and its email, or the empty string. */
  function WithUser(r: Receipt, staff: seq<AppUser>): (l: ListedReceipt)
    ensures l.receipt == r
    ensures (forall k :: 0 <= k < |staff| ==> staff[k].id != r.userId) ==>
      l.userName == "Unknown User" && l.userEmail == ""
    ensures forall k :: 0 <= k < |staff| && staff[k].id == r.userId && (forall j :: 0 <= j < k ==> staff[j].id != r.userId) ==>
      l.userName == (if staff[k].name == "" then "Unknown User" else staff[k].name) &&
      l.userEmail == staff[k].email
  {
    var u := FindIndex(staff, (a: AppUser) => a.id == r.userId);
    if u == -1 then ListedReceipt(r, "Unknown User", "")
    else ListedReceipt(r, if staff[u].name == "" then "Unknown User" else staff[u].name, staff[u].email)
  }

  function WithUsers(rs: seq<Receipt>, staff: seq<AppUser>): (l: seq<ListedReceipt>)
    ensures |l| == |rs|
    ensures forall i :: 0 <= i < |rs| ==> l[i] == WithUser(rs[i], staff)
  {
    seq(|rs|, i requires 0 <= i < |rs| => WithUser(rs[i], staff))
  }
}
