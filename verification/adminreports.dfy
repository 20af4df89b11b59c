/**
 * The admin's read-side figures over a snapshot of the invoice collection: the dashboard
 * counters, the KPI sums and the analytics status filter. Amounts are whole numbers.
 */
module AdminReports {
  import opened Wrappers
  import opened Text
  import opened Database

  /** How many invoices have a status in `statuses`. */
  function CountWhere(invoices: seq<Invoice>, statuses: set<Status>): (n: nat)
    ensures n <= |invoices|
  {
    if invoices == [] then 0
    else (if invoices[0].status in statuses then 1 else 0) + CountWhere(invoices[1..], statuses)
  }

  /** The sum of the amounts of the invoices whose status is in `statuses`. */
  function SumWhere(invoices: seq<Invoice>, statuses: set<Status>): int {
    if invoices == [] then 0
    else (if invoices[0].status in statuses then invoices[0].amount else 0) + SumWhere(invoices[1..], statuses)
  }

  /** The sum of all amounts. */
  function Total(invoices: seq<Invoice>): int {
    if invoices == [] then 0 else invoices[0].amount + Total(invoices[1..])
  }

  const AllStatuses: set<Status> := {Pending, Paid, Overdue, Cancelled}

  /** Counting over two disjoint status sets adds up. */
  lemma {:induction false} CountSplit(invoices: seq<Invoice>, a: set<Status>, b: set<Status>)
    requires a !! b
    ensures CountWhere(invoices, a + b) == CountWhere(invoices, a) + CountWhere(invoices, b)
    decreases |invoices|
  {
    if invoices != [] {
      CountSplit(invoices[1..], a, b);
    }
  }

  /** Summing over two disjoint status sets adds up. */
  lemma {:induction false} SumSplit(invoices: seq<Invoice>, a: set<Status>, b: set<Status>)
    requires a !! b
    ensures SumWhere(invoices, a + b) == SumWhere(invoices, a) + SumWhere(invoices, b)
    decreases |invoices|
  {
    if invoices != [] {
      SumSplit(invoices[1..], a, b);
    }
  }

  /** Every invoice has one of the four statuses. */
  lemma {:induction false} CountAll(invoices: seq<Invoice>)
    ensures CountWhere(invoices, AllStatuses) == |invoices|
    ensures SumWhere(invoices, AllStatuses) == Total(invoices)
    decreases |invoices|
  {
    if invoices != [] {
      CountAll(invoices[1..]);
      assert invoices[0].status in AllStatuses by {
        match invoices[0].status
        case Pending =>
        case Paid =>
        case Overdue =>
        case Cancelled =>
      }
    }
  }

  /** The figures of `GET /dashboard/stats`. */
  datatype DashboardStats = DashboardStats(
    totalRevenue: int,
    totalInvoices: nat,
    paidInvoices: nat,
    pendingInvoices: nat,
    overdueInvoices: nat,
    clients: nat,
    sales: nat)

  /** The users with a given role. */
  function WithRole(users: map<Id, User>, role: Role): (r: set<Id>)
    ensures forall id :: id in r <==> HasRole(users, id, role)
  {
    set id | id in users && users[id].role == role
  }

  /**
   * `GET /dashboard/stats`: revenue is the sum over paid invoices; the invoice total is the
   * sum of the paid, pending and overdue counts, so cancelled invoices are not counted.
   */
  function Stats(invoices: seq<Invoice>, users: map<Id, User>): (r: DashboardStats)
    ensures r.totalInvoices + CountWhere(invoices, {Cancelled}) == |invoices|
    ensures r.totalInvoices == r.paidInvoices + r.pendingInvoices + r.overdueInvoices
    ensures r.clients == |WithRole(users, Client)| && r.sales == |WithRole(users, Sales)|
    ensures r.totalRevenue == SumWhere(invoices, {Paid})
    ensures r.paidInvoices == CountWhere(invoices, {Paid})
    ensures r.pendingInvoices == CountWhere(invoices, {Pending})
    ensures r.overdueInvoices == CountWhere(invoices, {Overdue})
  {
    var paid := CountWhere(invoices, {Paid});
    var pending := CountWhere(invoices, {Pending});
    var overdue := CountWhere(invoices, {Overdue});
    CountSplit(invoices, {Paid}, {Pending});
    CountSplit(invoices, {Paid, Pending}, {Overdue});
    CountSplit(invoices, {Paid, Pending, Overdue}, {Cancelled});
    CountAll(invoices);
    assert {Paid} + {Pending} == {Paid, Pending};
    assert {Paid, Pending} + {Overdue} == {Paid, Pending, Overdue};
    assert {Paid, Pending, Overdue} + {Cancelled} == AllStatuses;
    DashboardStats(SumWhere(invoices, {Paid}), paid + pending + overdue, paid, pending, overdue,
                   |WithRole(users, Client)|, |WithRole(users, Sales)|)
  }

  /** The KPI block of `GET /advanced-analytics`, without the percentage. */
  datatype Kpis = Kpis(
    totalInvoices: nat,
    totalAmount: int,
    collectedAmount: int,
    outstandingAmount: int,
    overdueAmount: int,
    clientCount: nat,
    salesCount: nat)

  /**
   * The KPI sums: collected over paid, outstanding over pending and overdue, overdue alone.
   * What is collected, what is outstanding and what was cancelled make up the total.
   */
  function KpiFigures(invoices: seq<Invoice>, users: map<Id, User>): (r: Kpis)
    ensures r.totalInvoices == |invoices|
    ensures r.collectedAmount + r.outstandingAmount + SumWhere(invoices, {Cancelled}) == r.totalAmount
    ensures r.outstandingAmount == SumWhere(invoices, {Pending}) + r.overdueAmount
    ensures r.totalAmount == Total(invoices)
    ensures r.collectedAmount == SumWhere(invoices, {Paid})
    ensures r.outstandingAmount == SumWhere(invoices, {Pending, Overdue})
    ensures r.overdueAmount == SumWhere(invoices, {Overdue})
    ensures r.clientCount == |WithRole(users, Client)| && r.salesCount == |WithRole(users, Sales)|
  {
    SumSplit(invoices, {Pending}, {Overdue});
    SumSplit(invoices, {Paid}, {Pending, Overdue});
    SumSplit(invoices, {Paid, Pending, Overdue}, {Cancelled});
    CountAll(invoices);
    assert {Pending} + {Overdue} == {Pending, Overdue};
    assert {Paid} + {Pending, Overdue} == {Paid, Pending, Overdue};
    assert {Paid, Pending, Overdue} + {Cancelled} == AllStatuses;
    Kpis(|invoices|, Total(invoices), SumWhere(invoices, {Paid}), SumWhere(invoices, {Pending, Overdue}),
         SumWhere(invoices, {Overdue}), |WithRole(users, Client)|, |WithRole(users, Sales)|)
  }

  /** The two dashboards read the same snapshot consistently. */
  lemma DashboardsAgree(invoices: seq<Invoice>, users: map<Id, User>)
    ensures Stats(invoices, users).totalRevenue == KpiFigures(invoices, users).collectedAmount
    ensures Stats(invoices, users).totalInvoices + CountWhere(invoices, {Cancelled}) == KpiFigures(invoices, users).totalInvoices
    ensures Stats(invoices, users).clients == KpiFigures(invoices, users).clientCount
  {
  }

  /**
   * Each dashboard counter agrees with the analytics listing filtered on that status: the paid
   * revenue, and the paid, pending and overdue counts, are what `GET /analytics` reports for
   * "paid", "pending" and "overdue".
   */
  lemma DashboardMatchesAnalytics(invoices: seq<Invoice>, users: map<Id, User>)
    ensures Stats(invoices, users).totalRevenue == Analytics(invoices, Some("paid")).totalAmount
    ensures Stats(invoices, users).paidInvoices == Analytics(invoices, Some("paid")).total
    ensures Stats(invoices, users).pendingInvoices == Analytics(invoices, Some("pending")).total
    ensures Stats(invoices, users).overdueInvoices == Analytics(invoices, Some("overdue")).total
    ensures KpiFigures(invoices, users).overdueAmount == Analytics(invoices, Some("overdue")).totalAmount
    ensures KpiFigures(invoices, users).outstandingAmount
         == Analytics(invoices, Some("pending")).totalAmount + Analytics(invoices, Some("overdue")).totalAmount
  {
    AnalyticsFilter(invoices, Paid);
    AnalyticsFilter(invoices, Pending);
    AnalyticsFilter(invoices, Overdue);
  }

  /** The analytics status parameter: absent, empty or "all" imposes nothing; anything else is matched literally. */
  function StatusConstraint(status: Option<string>): (c: Option<string>)
    ensures c.None? <==> !Truthy(status) || status.value == "all"
    ensures c.Some? ==> c == status
  {
    if Truthy(status) && status.value != "all" then status else None
  }

  predicate Matches(inv: Invoice, c: Option<string>) {
    c.None? || StatusName(inv.status) == c.value
  }

  /** The invoices of the snapshot that satisfy the constraint, in order. */
  function Matching(invoices: seq<Invoice>, c: Option<string>): (r: seq<Invoice>)
    ensures |r| <= |invoices|
    ensures forall inv :: inv in r <==> inv in invoices && Matches(inv, c)
  {
    if invoices == [] then []
    else (if Matches(invoices[0], c) then [invoices[0]] else []) + Matching(invoices[1..], c)
  }

  /**
   * The filter keeps every matching invoice as often as the snapshot holds it and drops every
   * other one, in snapshot order: it is the snapshot with the non-matching invoices removed.
   */
  lemma {:induction false} MatchingKeepsOccurrences(invoices: seq<Invoice>, c: Option<string>)
    ensures forall inv :: multiset(Matching(invoices, c))[inv] == if Matches(inv, c) then multiset(invoices)[inv] else 0
    decreases |invoices|
  {
    if invoices != [] {
      var head := if Matches(invoices[0], c) then [invoices[0]] else [];
      var rest := Matching(invoices[1..], c);
      MatchingKeepsOccurrences(invoices[1..], c);
      assert Matching(invoices, c) == head + rest;
      assert invoices == [invoices[0]] + invoices[1..];
      assert multiset(Matching(invoices, c)) == multiset(head) + multiset(rest);
      assert multiset(invoices) == multiset([invoices[0]]) + multiset(invoices[1..]);
    }
  }

  /** What `GET /analytics` returns when no grouping is asked for. */
  datatype Summary = Summary(invoices: seq<Invoice>, total: nat, totalAmount: int)

  /** `GET /analytics` without a period and without a grouping: the matching invoices, their number and their total. */
  function Analytics(invoices: seq<Invoice>, status: Option<string>): (r: Summary)
    ensures forall inv :: inv in r.invoices <==> inv in invoices && Matches(inv, StatusConstraint(status))
    ensures r.total == |r.invoices| && r.totalAmount == Total(r.invoices)
  {
    var m := Matching(invoices, StatusConstraint(status));
    Summary(m, |m|, Total(m))
  }

  /** `GET /export/invoices` without date bounds: the invoices the status parameter selects, in snapshot order. */
  function Export(invoices: seq<Invoice>, status: Option<string>): (r: seq<Invoice>)
    ensures forall inv :: inv in r <==> inv in invoices && Matches(inv, StatusConstraint(status))
    ensures |r| <= |invoices|
  {
    Matching(invoices, StatusConstraint(status))
  }

  /** The export and the analytics listing apply the same status filter, so they list the same invoices. */
  lemma ExportAgreesWithAnalytics(invoices: seq<Invoice>, status: Option<string>)
    ensures Export(invoices, status) == Analytics(invoices, status).invoices
    ensures |Export(invoices, status)| == Analytics(invoices, status).total
  {
  }

  /** Filtering on a status name counts and sums exactly the invoices with that status. */
  lemma {:induction false} MatchingStatus(invoices: seq<Invoice>, s: Status)
    ensures |Matching(invoices, Some(StatusName(s)))| == CountWhere(invoices, {s})
    ensures Total(Matching(invoices, Some(StatusName(s)))) == SumWhere(invoices, {s})
    decreases |invoices|
  {
    if invoices != [] {
      MatchingStatus(invoices[1..], s);
      var head := if Matches(invoices[0], Some(StatusName(s))) then [invoices[0]] else [];
      TotalAppend(head, Matching(invoices[1..], Some(StatusName(s))));
      assert Matches(invoices[0], Some(StatusName(s))) <==> invoices[0].status == s;
    }
  }

  lemma {:induction false} TotalAppend(a: seq<Invoice>, b: seq<Invoice>)
    ensures Total(a + b) == Total(a) + Total(b)
    decreases |a|
  {
    if a == [] {
      assert a + b == b;
    } else {
      TotalAppend(a[1..], b);
      assert (a + b)[1..] == a[1..] + b;
    }
  }

  /** No constraint keeps the whole snapshot. */
  lemma {:induction false} MatchingNothing(invoices: seq<Invoice>)
    ensures Matching(invoices, None) == invoices
    decreases |invoices|
  {
    if invoices != [] {
      MatchingNothing(invoices[1..]);
      assert invoices == [invoices[0]] + invoices[1..];
    }
  }

  /** "all" and an absent status agree and keep everything; a status name gives that status's count and sum. */
  lemma AnalyticsFilter(invoices: seq<Invoice>, s: Status)
    ensures Analytics(invoices, Some("all")) == Analytics(invoices, None)
    ensures Analytics(invoices, None).invoices == invoices
    ensures Analytics(invoices, Some(StatusName(s))).total == CountWhere(invoices, {s})
    ensures Analytics(invoices, Some(StatusName(s))).totalAmount == SumWhere(invoices, {s})
  {
    MatchingNothing(invoices);
    MatchingStatus(invoices, s);
  }

  /** A status value outside the enumeration is matched literally and finds nothing. */
  lemma UnknownStatusFindsNothing(invoices: seq<Invoice>, t: string)
    requires t != "" && t != "all" && forall s :: StatusName(s) != t
    ensures Analytics(invoices, Some(t)).total == 0
  {
    MatchingUnknown(invoices, t);
  }

  lemma {:induction false} MatchingUnknown(invoices: seq<Invoice>, t: string)
    requires forall s :: StatusName(s) != t
    ensures Matching(invoices, Some(t)) == []
    decreases |invoices|
  {
    if invoices != [] {
      MatchingUnknown(invoices[1..], t);
      assert StatusName(invoices[0].status) != t;
    }
  }
}
