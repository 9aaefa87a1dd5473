/** The eight table generators of data_gen/generator.py, in the order `main()` calls
    them. Each one loops over its parent rows, draws from the random streams and appends
    rows to a local list while a running counter numbers them. The ensures clauses state
    what every run produces, whatever the draws: counts, identifiers, links to parent
    rows and the ranges of every drawn or derived value. */
module Generator {
  import opened Calendar
  import opened Schema
  import opened Random

  // ---------------------------------------------------------------------------
  // Horizon facts

  /** The horizon constants are the ordinals of 2024-07-01 and 2025-12-31. */
  lemma HorizonOrdinals()
    ensures StartDate == ToOrdinal(Date(2024, 7, 1)) && EndDate == ToOrdinal(Date(2025, 12, 31))
  {
    DaysBeforeYearClosedForm(2024);
    DaysBeforeYearClosedForm(2025);
  }

  /** The Q4 pull of up to 60 days never leaves the horizon: a Q4 day of the horizon is
      on or after 2024-10-01, so the pulled day is on or after 2024-08-02. */
  lemma SeasonalPullStaysInHorizon(d: Day, pull: int)
    requires StartDate <= d <= EndDate && IsQ4(MonthOf(d)) && 0 <= pull <= 60
    ensures ToOrdinal(Date(2024, 8, 2)) <= d - pull && StartDate < d - pull
  {
    HorizonOrdinals();
    var october := Date(2024, 10, 1);
    var july := Date(2024, 7, 1);
    var e := FromOrdinal(d);
    if Precedes(e, july) {
      ToOrdinalMonotone(e, july);
    }
    if Precedes(october, e) {
      ToOrdinalMonotone(october, e);
    }
    DaysBeforeYearClosedForm(2024);
  }

  // ---------------------------------------------------------------------------
  // generate_accounts

  /** An account's creation day: uniform over the horizon, then pulled back by 0 to 60
      days when it falls in October to December. */
  method DrawCreatedDay(py: Rng) returns (created: Day)
    modifies py
    ensures StartDate <= created <= EndDate
  {
    var offset := py.RandInt(0, EndDate - StartDate);
    created := StartDate + offset;
    if IsQ4(MonthOf(created)) {
      var pull := py.RandInt(0, 60);
      SeasonalPullStaysInHorizon(created, pull);
      created := created - pull;
    }
  }

  method GenerateAccounts(py: Rng, np: Rng, fake: Faker) returns (accounts: seq<Account>)
    modifies py, np, fake
    ensures |accounts| == NumAccounts
    ensures forall i :: 0 <= i < |accounts| ==>
      && accounts[i].id == AccountId(i + 1)
      && accounts[i].status == "Active"
      && StartDate <= accounts[i].createdAt <= EndDate
  {
    accounts := [];
    for i := 0 to NumAccounts
      invariant |accounts| == i
      invariant forall k :: 0 <= k < i ==>
        && accounts[k].id == AccountId(k + 1)
        && accounts[k].status == "Active"
        && StartDate <= accounts[k].createdAt <= EndDate
    {
      var segment := np.WeightedChoice(Segments, SegmentWeights);
      var created := DrawCreatedDay(py);
      var name := fake.Company();
      var size := np.WeightedChoice(CompanySizes, CompanySizeWeights);
      var region := np.Choice(Regions);
      var channel := np.Choice(AcquisitionChannels);
      accounts := accounts + [Account(AccountId(i + 1), name, segment, size, region, channel, created, "Active")];
    }
  }

  // ---------------------------------------------------------------------------
  // Row grouping

  /** `offsets` cuts a table of `total` rows into consecutive groups, one per parent row:
      the rows of parent i are those at positions offsets[i] .. offsets[i+1] - 1. */
  ghost predicate Groups(offsets: seq<nat>, parents: nat, total: nat) {
    && |offsets| == parents + 1
    && offsets[0] == 0
    && offsets[parents] == total
    && (forall i, j :: 0 <= i <= j <= parents ==> offsets[i] <= offsets[j])
  }

  /** When no group is empty there are at least as many rows as parents. */
  lemma {:induction false} NonEmptyGroupsCount(offsets: seq<nat>, parents: nat, total: nat)
    requires Groups(offsets, parents, total)
    requires forall i, j :: 0 <= i < j <= parents ==> offsets[i] < offsets[j]
    ensures parents <= total
  {
    var k := 0;
    while k < parents
      invariant 0 <= k <= parents && k <= offsets[k]
    {
      k := k + 1;
    }
  }

  // ---------------------------------------------------------------------------
  // generate_users

  /** User u is one of account a's users, created within 30 days of the account. */
  ghost predicate UserOf(u: User, a: Account) {
    u.accountId == a.id && a.createdAt <= u.createdAt <= a.createdAt + 30
  }

  /** The users table while generate_users is at account a: users are numbered from 1 in
      order, the groups of accounts 0 .. a-1 are closed and non-empty, and the rows after
      offsets[a] belong to account a. */
  ghost predicate UsersSoFar(users: seq<User>, accounts: seq<Account>, offsets: seq<nat>, a: nat) {
    && a <= |accounts|
    && |offsets| == a + 1
    && offsets[0] == 0
    && offsets[a] <= |users|
    && (forall i, j :: 0 <= i < j <= a ==> offsets[i] < offsets[j])
    && (forall j :: 0 <= j < |users| ==> users[j].id == UserId(j + 1))
    && (forall i, j :: 0 <= i < a && offsets[i] <= j < offsets[i + 1] ==> UserOf(users[j], accounts[i]))
    && (forall j :: offsets[a] <= j < |users| ==> a < |accounts| && UserOf(users[j], accounts[a]))
  }

  lemma AddUser(users: seq<User>, accounts: seq<Account>, offsets: seq<nat>, a: nat, user: User)
    requires UsersSoFar(users, accounts, offsets, a) && a < |accounts|
    requires user.id == UserId(|users| + 1) && UserOf(user, accounts[a])
    ensures UsersSoFar(users + [user], accounts, offsets, a)
  {
    var next := users + [user];
    forall i, j | 0 <= i < a && offsets[i] <= j < offsets[i + 1]
      ensures UserOf(next[j], accounts[i])
    {
      assert next[j] == users[j];
    }
  }

  lemma CloseUserGroup(users: seq<User>, accounts: seq<Account>, offsets: seq<nat>, a: nat)
    requires UsersSoFar(users, accounts, offsets, a) && a < |accounts| && offsets[a] < |users|
    ensures UsersSoFar(users, accounts, offsets + [|users|], a + 1)
  {
    var next := offsets + [|users|];
    assert forall i :: 0 <= i <= a ==> next[i] == offsets[i];
  }

  method GenerateUsers(accounts: seq<Account>, np: Rng, py: Rng, fake: Faker)
    returns (users: seq<User>, ghost offsets: seq<nat>)
    modifies np, py, fake
    ensures Groups(offsets, |accounts|, |users|)
    ensures forall i, j :: 0 <= i < j <= |accounts| ==> offsets[i] < offsets[j]
    ensures forall j :: 0 <= j < |users| ==> users[j].id == UserId(j + 1)
    ensures forall i, j :: 0 <= i < |accounts| && offsets[i] <= j < offsets[i + 1] ==>
      UserOf(users[j], accounts[i])
  {
    users := [];
    offsets := [0];
    var userId := 1;
    for a := 0 to |accounts|
      invariant userId == |users| + 1
      invariant UsersSoFar(users, accounts, offsets, a) && offsets[a] == |users|
    {
      var account := accounts[a];
      var drawn := np.Poisson(AvgUsersPerAccount);
      var numUsers := if drawn < 1 then 1 else drawn;
      for u := 0 to numUsers
        invariant userId == |users| + 1
        invariant UsersSoFar(users, accounts, offsets, a) && |users| == offsets[a] + u
      {
        var email := fake.Email();
        var role := np.WeightedChoice(Roles, RoleWeights);
        var later := py.RandInt(0, 30);
        var user := User(UserId(userId), account.id, email, role, account.createdAt + later);
        AddUser(users, accounts, offsets, a, user);
        users := users + [user];
        userId := userId + 1;
      }
      CloseUserGroup(users, accounts, offsets, a);
      offsets := offsets + [|users|];
    }
  }

  // ---------------------------------------------------------------------------
  // generate_subscriptions

  /** The plan tier an Enterprise account is given: `PLAN_TIERS[SEGMENTS.index('Enterprise')]`. */
  function EnterpriseSegmentTier(): PlanTier {
    PlanTiers[IndexOf(Segments, Enterprise)]
  }

  /** Read as written, the Enterprise rule picks the tier at the Enterprise SEGMENT's
      position, which is the first tier, 'Starter'. */
  lemma EnterpriseSegmentTierIsStarter()
    ensures EnterpriseSegmentTier() == Starter
  {
    assert Segments[0] == Enterprise;
  }

  /** Subscription s is account a's, the i-th of its table; Enterprise accounts get the
      tier EnterpriseSegmentTier(), and the status says whether an end date is set. */
  ghost predicate SubscriptionOf(s: Subscription, a: Account, i: nat) {
    && s.id == SubscriptionId(i + 1)
    && s.accountId == a.id
    && s.startDate == a.createdAt
    && (a.segment == Enterprise ==> s.planTier == Starter)
    && (s.status == Cancelled <==> s.endDate.Some?)
  }

  /** How the churn draw decides the end date: no churn, no end date; a churn after `days`
      days ends the subscription then, unless that is past the horizon, when the end date
      is dropped again and the subscription stays Active. */
  ghost predicate ChurnOutcome(s: Subscription, churn: Option<int>) {
    match churn
    case None => s.endDate == None
    case Some(days) =>
      && 90 <= days <= 400
      && s.endDate == (if s.startDate + days <= EndDate then Some(s.startDate + days) else None)
  }

  method GenerateSubscriptions(accounts: seq<Account>, np: Rng, py: Rng)
    returns (subscriptions: seq<Subscription>, ghost churnDays: seq<Option<int>>)
    modifies np, py
    ensures |subscriptions| == |accounts| == |churnDays|
    ensures forall i :: 0 <= i < |accounts| ==>
      SubscriptionOf(subscriptions[i], accounts[i], i) && ChurnOutcome(subscriptions[i], churnDays[i])
  {
    EnterpriseSegmentTierIsStarter();
    subscriptions := [];
    churnDays := [];
    var subId := 1;
    for a := 0 to |accounts|
      invariant subId == a + 1
      invariant |subscriptions| == a == |churnDays|
      invariant forall i :: 0 <= i < a ==>
        SubscriptionOf(subscriptions[i], accounts[i], i) && ChurnOutcome(subscriptions[i], churnDays[i])
    {
      var account := accounts[a];
      var start := account.createdAt;
      var tier;
      if account.segment == Enterprise {
        tier := EnterpriseSegmentTier();
      } else {
        tier := np.WeightedChoice(PlanTiers, PlanTierWeights);
      }
      var endDate: Option<Day> := None;
      ghost var churn: Option<int> := None;
      var u := py.Random();
      if u < 0.15 {
        var days := py.RandInt(90, 400);
        churn := Some(days);
        endDate := Some(start + days);
        if start + days > EndDate {
          endDate := None;
        }
      }
      var status := if endDate.Some? then Cancelled else Active;
      var subscription := Subscription(SubscriptionId(subId), account.id, tier, start, endDate, status);
      assert SubscriptionOf(subscription, account, a) && ChurnOutcome(subscription, churn);
      subscriptions := subscriptions + [subscription];
      churnDays := churnDays + [churn];
      subId := subId + 1;
    }
  }

  // ---------------------------------------------------------------------------
  // generate_invoices_payments

  /** The last day billed: the end date when one is set, the horizon's end otherwise. */
  function BillingEnd(s: Subscription): Day {
    if s.endDate.Some? then s.endDate.value else EndDate
  }

  /** The invoice dates of a subscription: the first days of the months from its start
      to its billing end, `pd.date_range(start, end, freq='MS')`. */
  ghost function BillingMonths(s: Subscription): seq<Day> {
    MonthStarts(s.startDate, BillingEnd(s))
  }

  /** The invoice dates are the first days of the months in [start, billing end], in order;
      how many there are depends on whether the start is itself a first of the month. */
  lemma BillingMonthsExact(s: Subscription)
    requires s.startDate <= BillingEnd(s)
    ensures forall i, j :: 0 <= i < j < |BillingMonths(s)| ==> BillingMonths(s)[i] < BillingMonths(s)[j]
    ensures forall k: Day :: s.startDate <= k <= BillingEnd(s) && IsFirstOfMonth(k) <==> k in BillingMonths(s)
    ensures |BillingMonths(s)| ==
      MonthIndex(BillingEnd(s)) - MonthIndex(s.startDate) + (if IsFirstOfMonth(s.startDate) then 1 else 0)
  {
    MonthStartsExact(s.startDate, BillingEnd(s));
    MonthStartsCount(s.startDate, BillingEnd(s));
  }

  /** A subscription that starts after the first of its billing end's month, and not on a
      first itself, gets no invoice at all. */
  lemma NoInvoicesWithinOneMonth(s: Subscription)
    requires s.startDate <= BillingEnd(s) && MonthIndex(s.startDate) == MonthIndex(BillingEnd(s))
    requires !IsFirstOfMonth(s.startDate)
    ensures BillingMonths(s) == []
  {
    MonthStartsCount(s.startDate, BillingEnd(s));
  }

  /** An invoice amount: the plan's monthly price, or 1.2 times it after an expansion. */
  ghost predicate InvoiceAmount(cents: int, tier: PlanTier) {
    cents == PlanMrrCents(tier) || cents == PlanMrrCents(tier) * 12 / 10
  }

  /** Invoice inv is the j-th of the table, billed to subscription s for the month that
      starts on `month`. */
  ghost predicate InvoiceOf(inv: Invoice, s: Subscription, j: nat, month: Day) {
    && inv.id == InvoiceId(j + 1)
    && inv.subscriptionId == s.id
    && inv.accountId == s.accountId
    && inv.invoiceDate == month
    && InvoiceAmount(inv.amountCents, s.planTier)
    && inv.status == "Paid"
  }

  /** Payment p settles invoice inv in full, 1 to 10 days after it was issued. */
  ghost predicate PaymentOf(p: Payment, inv: Invoice, j: nat) {
    && p.id == PaymentId(j + 1)
    && p.invoiceId == inv.id
    && p.amountCents == inv.amountCents
    && inv.invoiceDate + 1 <= p.paymentDate <= inv.invoiceDate + 10
  }

  /** The billing months of every subscription, in table order. */
  ghost function AllBillingMonths(subs: seq<Subscription>): (bills: seq<seq<Day>>)
    ensures |bills| == |subs|
    ensures forall i :: 0 <= i < |subs| ==> bills[i] == BillingMonths(subs[i])
  {
    if subs == [] then [] else AllBillingMonths(subs[..|subs| - 1]) + [BillingMonths(subs[|subs| - 1])]
  }

  /** The invoices and payments made so far for subscription `sub`, whose billing months
      are `months`, numbered on from `first`: the t-th pair bills months[t]. */
  ghost predicate InvoiceGroup(invs: seq<Invoice>, pays: seq<Payment>, sub: Subscription, months: seq<Day>, first: nat) {
    && |invs| == |pays| <= |months|
    && forall t :: 0 <= t < |invs| ==>
         InvoiceOf(invs[t], sub, first + t, months[t]) && PaymentOf(pays[t], invs[t], first + t)
  }

  /** Adding the pair numbered n (the next number) to a group keeps it a group. */
  lemma GrowInvoiceGroup(
    invs: seq<Invoice>, pays: seq<Payment>, sub: Subscription, months: seq<Day>, first: nat,
    n: nat, inv: Invoice, p: Payment)
    requires InvoiceGroup(invs, pays, sub, months, first) && |invs| < |months|
    requires n == first + |invs| + 1
    requires InvoiceOf(inv, sub, n - 1, months[|invs|]) && PaymentOf(p, inv, n - 1)
    ensures InvoiceGroup(invs + [inv], pays + [p], sub, months, first)
  {
    var nextI := invs + [inv];
    var nextP := pays + [p];
    forall t | 0 <= t < |nextI|
      ensures InvoiceOf(nextI[t], sub, first + t, months[t]) && PaymentOf(nextP[t], nextI[t], first + t)
    {
      if t < |invs| {
        assert nextI[t] == invs[t] && nextP[t] == pays[t];
      }
    }
  }

  /** offsets[i] is where subscription i's invoices start, for the first k subscriptions,
      whose billing months are bills[0 .. k-1]; `total` rows are made so far. */
  ghost predicate BillingOffsets(offsets: seq<nat>, bills: seq<seq<Day>>, k: nat, total: nat) {
    && k <= |bills|
    && |offsets| == k + 1
    && offsets[0] == 0
    && offsets[k] == total
    && (forall i :: 0 <= i < k ==> offsets[i + 1] == offsets[i] + |bills[i]|)
    && (forall i, j :: 0 <= i <= j <= k ==> offsets[i] <= offsets[j])
  }

  /** Each of the first k subscriptions has one invoice per billing month, in order. */
  ghost predicate InvoiceRows(
    invoices: seq<Invoice>, subs: seq<Subscription>, bills: seq<seq<Day>>, offsets: seq<nat>, k: nat)
    requires BillingOffsets(offsets, bills, k, |invoices|) && k <= |subs|
  {
    forall i, j :: 0 <= i < k && offsets[i] <= j < offsets[i + 1] ==>
      InvoiceOf(invoices[j], subs[i], j, bills[i][j - offsets[i]])
  }

  /** Payment j settles invoice j. */
  ghost predicate PaymentRows(invoices: seq<Invoice>, payments: seq<Payment>) {
    && |payments| == |invoices|
    && forall j :: 0 <= j < |payments| ==> PaymentOf(payments[j], invoices[j], j)
  }

  /** The two tables after generate_invoices_payments has billed subscriptions 0 .. k-1,
      where bills[i] lists subscription i's billing months. */
  ghost predicate InvoicesSoFar(
    invoices: seq<Invoice>, payments: seq<Payment>, subs: seq<Subscription>, bills: seq<seq<Day>>,
    offsets: seq<nat>, k: nat)
  {
    && k <= |subs| == |bills|
    && BillingOffsets(offsets, bills, k, |invoices|)
    && InvoiceRows(invoices, subs, bills, offsets, k)
    && PaymentRows(invoices, payments)
  }

  lemma AppendInvoiceGroup(
    invoices: seq<Invoice>, payments: seq<Payment>, subs: seq<Subscription>, bills: seq<seq<Day>>,
    offsets: seq<nat>, k: nat, invs: seq<Invoice>, pays: seq<Payment>)
    requires InvoicesSoFar(invoices, payments, subs, bills, offsets, k) && k < |subs|
    requires InvoiceGroup(invs, pays, subs[k], bills[k], |invoices|) && |invs| == |bills[k]|
    ensures InvoicesSoFar(invoices + invs, payments + pays, subs, bills, offsets + [|invoices| + |invs|], k + 1)
  {
    AppendOffsets(offsets, bills, k, |invoices|);
    AppendInvoiceRows(invoices, subs, bills, offsets, k, invs, pays);
    AppendPaymentRows(invoices, payments, invs, pays, subs[k], bills[k]);
  }

  lemma AppendOffsets(offsets: seq<nat>, bills: seq<seq<Day>>, k: nat, total: nat)
    requires BillingOffsets(offsets, bills, k, total) && k < |bills|
    ensures BillingOffsets(offsets + [total + |bills[k]|], bills, k + 1, total + |bills[k]|)
  {
    var next := offsets + [total + |bills[k]|];
    assert forall i :: 0 <= i <= k ==> next[i] == offsets[i];
  }

  lemma AppendInvoiceRows(
    invoices: seq<Invoice>, subs: seq<Subscription>, bills: seq<seq<Day>>, offsets: seq<nat>, k: nat,
    invs: seq<Invoice>, pays: seq<Payment>)
    requires BillingOffsets(offsets, bills, k, |invoices|) && k < |subs| && k < |bills|
    requires InvoiceRows(invoices, subs, bills, offsets, k)
    requires InvoiceGroup(invs, pays, subs[k], bills[k], |invoices|) && |invs| == |bills[k]|
    ensures BillingOffsets(offsets + [|invoices| + |invs|], bills, k + 1, |invoices + invs|)
    ensures InvoiceRows(invoices + invs, subs, bills, offsets + [|invoices| + |invs|], k + 1)
  {
    AppendOffsets(offsets, bills, k, |invoices|);
    var nextI := invoices + invs;
    var next := offsets + [|invoices| + |invs|];
    forall i, j | 0 <= i < k + 1 && next[i] <= j < next[i + 1]
      ensures InvoiceOf(nextI[j], subs[i], j, bills[i][j - next[i]])
    {
      if i < k {
        assert next[i] == offsets[i] && next[i + 1] == offsets[i + 1];
        assert nextI[j] == invoices[j];
      } else {
        GroupInvoiceAt(invoices, invs, pays, subs[k], bills[k], j);
      }
    }
  }

  /** Row j of the invoices table, when it falls in the group appended last. */
  lemma GroupInvoiceAt(
    invoices: seq<Invoice>, invs: seq<Invoice>, pays: seq<Payment>, sub: Subscription,
    months: seq<Day>, j: nat)
    requires InvoiceGroup(invs, pays, sub, months, |invoices|)
    requires |invoices| <= j < |invoices| + |invs|
    ensures InvoiceOf((invoices + invs)[j], sub, j, months[j - |invoices|])
  {
    var t := j - |invoices|;
    assert (invoices + invs)[j] == invs[t];
    assert InvoiceOf(invs[t], sub, |invoices| + t, months[t]);
  }

  lemma AppendPaymentRows(
    invoices: seq<Invoice>, payments: seq<Payment>, invs: seq<Invoice>, pays: seq<Payment>,
    sub: Subscription, months: seq<Day>)
    requires PaymentRows(invoices, payments)
    requires InvoiceGroup(invs, pays, sub, months, |invoices|)
    ensures PaymentRows(invoices + invs, payments + pays)
  {
    var nextI := invoices + invs;
    var nextP := payments + pays;
    forall j | 0 <= j < |nextP|
      ensures PaymentOf(nextP[j], nextI[j], j)
    {
      if j < |payments| {
        assert nextP[j] == payments[j] && nextI[j] == invoices[j];
      } else {
        var t := j - |payments|;
        assert nextP[j] == pays[t] && nextI[j] == invs[t];
        assert PaymentOf(pays[t], invs[t], |invoices| + t);
      }
    }
  }

  /** The body of generate_invoices_payments for one subscription: one invoice and one
      payment per billing month, numbered on from `first`. */
  method InvoiceSubscription(sub: Subscription, first: nat, py: Rng, np: Rng)
    returns (invs: seq<Invoice>, pays: seq<Payment>)
    modifies py, np
    ensures |invs| == |BillingMonths(sub)|
    ensures InvoiceGroup(invs, pays, sub, BillingMonths(sub), first)
  {
    var invoiceId := first + 1;
    var paymentId := first + 1;
    var months := MonthStarts(sub.startDate, BillingEnd(sub));
    invs := [];
    pays := [];
    for m := 0 to |months|
      invariant |invs| == m && InvoiceGroup(invs, pays, sub, months, first)
      invariant invoiceId == first + |invs| + 1 && paymentId == invoiceId
    {
      var invoiceDate := months[m];
      var mrr := PlanMrrCents(sub.planTier);
      var u := py.Random();
      if u < 0.05 {
        mrr := mrr * 12 / 10;
      }
      var invoice := Invoice(InvoiceId(invoiceId), sub.id, sub.accountId, invoiceDate, mrr, "Paid");
      var delay := py.RandInt(1, 10);
      var paymentMethod := np.Choice(PaymentMethods);
      var payment := Payment(PaymentId(paymentId), InvoiceId(invoiceId), invoiceDate + delay, mrr, paymentMethod);
      GrowInvoiceGroup(invs, pays, sub, months, first, invoiceId, invoice, payment);
      invs := invs + [invoice];
      pays := pays + [payment];
      invoiceId := invoiceId + 1;
      paymentId := paymentId + 1;
    }
  }

  method GenerateInvoicesPayments(subscriptions: seq<Subscription>, py: Rng, np: Rng)
    returns (invoices: seq<Invoice>, payments: seq<Payment>, ghost offsets: seq<nat>)
    modifies py, np
    ensures |invoices| == |payments|
    ensures Groups(offsets, |subscriptions|, |invoices|)
    ensures forall i :: 0 <= i < |subscriptions| ==>
      offsets[i + 1] - offsets[i] == |BillingMonths(subscriptions[i])|
    ensures forall i, j :: 0 <= i < |subscriptions| && offsets[i] <= j < offsets[i + 1] ==>
      InvoiceOf(invoices[j], subscriptions[i], j, BillingMonths(subscriptions[i])[j - offsets[i]])
    ensures forall j :: 0 <= j < |payments| ==> PaymentOf(payments[j], invoices[j], j)
  {
    ghost var bills := AllBillingMonths(subscriptions);
    invoices := [];
    payments := [];
    offsets := [0];
    for k := 0 to |subscriptions|
      invariant InvoicesSoFar(invoices, payments, subscriptions, bills, offsets, k)
    {
      var invs, pays := InvoiceSubscription(subscriptions[k], |invoices|, py, np);
      AppendInvoiceGroup(invoices, payments, subscriptions, bills, offsets, k, invs, pays);
      offsets := offsets + [|invoices| + |invs|];
      invoices := invoices + invs;
      payments := payments + pays;
    }
    AllInvoiced(invoices, payments, subscriptions, offsets);
  }

  /** Once every subscription is billed, the tables are what generate_invoices_payments
      promises, with each subscription's billing months written out. */
  lemma AllInvoiced(invoices: seq<Invoice>, payments: seq<Payment>, subs: seq<Subscription>, offsets: seq<nat>)
    requires InvoicesSoFar(invoices, payments, subs, AllBillingMonths(subs), offsets, |subs|)
    ensures |invoices| == |payments|
    ensures Groups(offsets, |subs|, |invoices|)
    ensures forall i :: 0 <= i < |subs| ==> offsets[i + 1] - offsets[i] == |BillingMonths(subs[i])|
    ensures forall i, j :: 0 <= i < |subs| && offsets[i] <= j < offsets[i + 1] ==>
      InvoiceOf(invoices[j], subs[i], j, BillingMonths(subs[i])[j - offsets[i]])
    ensures forall j :: 0 <= j < |payments| ==> PaymentOf(payments[j], invoices[j], j)
  {
    var bills := AllBillingMonths(subs);
    forall i, j | 0 <= i < |subs| && offsets[i] <= j < offsets[i + 1]
      ensures InvoiceOf(invoices[j], subs[i], j, BillingMonths(subs[i])[j - offsets[i]])
    {
      assert bills[i] == BillingMonths(subs[i]);
    }
  }

  // ---------------------------------------------------------------------------
  // generate_crm_deals

  /** `int(NUM_ACCOUNTS * 0.3)`: the number of lost deals, 150. */
  const NumLostDeals: nat := NumAccounts * 3 / 10

  /** Deal d is account a's won deal, numbered n: a value in the segment's band, closed
      on the day the account was created after a cycle of 30 to 120 days. */
  ghost predicate WonDealOf(d: Deal, a: Account, n: nat) {
    && d.id == DealId(n)
    && d.accountId == Some(a.id)
    && d.stage == ClosedWon
    && d.segment == a.segment
    && WonDealValueLow(a.segment) <= d.dealValue <= WonDealValueHigh(a.segment)
    && d.closedDate == a.createdAt
    && 30 <= d.salesCycleDays <= 120
    && d.salesCycleDays == d.closedDate - d.createdDate
  }

  /** Deal d is a lost deal numbered n, with no account: created within the horizon, closed
      20 to 90 days later, with a separately drawn cycle length of 20 to 90 days. */
  ghost predicate LostDeal(d: Deal, n: nat) {
    && d.id == DealId(n)
    && d.accountId == None
    && d.stage == ClosedLost
    && 5000 <= d.dealValue <= 100000
    && StartDate <= d.createdDate <= EndDate
    && d.createdDate + 20 <= d.closedDate <= d.createdDate + 90
    && 20 <= d.salesCycleDays <= 90
  }

  /** The won deal's creation date is up to 120 days before its account's, so accounts
      must be created after day 120 of the calendar (Python's dates start at year 1). */
  method GenerateCrmDeals(accounts: seq<Account>, py: Rng, np: Rng) returns (deals: seq<Deal>)
    requires forall i :: 0 <= i < |accounts| ==> accounts[i].createdAt > 120
    modifies py, np
    ensures |deals| == |accounts| + NumLostDeals
    ensures forall i :: 0 <= i < |accounts| ==> WonDealOf(deals[i], accounts[i], i + 1)
    ensures forall j :: |accounts| <= j < |deals| ==> LostDeal(deals[j], j + 1)
  {
    deals := [];
    var dealId := 1;
    for a := 0 to |accounts|
      invariant dealId == |deals| + 1 && |deals| == a
      invariant forall i :: 0 <= i < a ==> WonDealOf(deals[i], accounts[i], i + 1)
    {
      var account := accounts[a];
      // All three values of the dict literal are drawn, then one is picked by segment.
      var enterpriseValue := py.RandInt(50000, 150000);
      var midMarketValue := py.RandInt(15000, 50000);
      var smbValue := py.RandInt(3000, 15000);
      var dealValue := match account.segment
        case Enterprise => enterpriseValue
        case MidMarket => midMarketValue
        case Smb => smbValue;
      var back := py.RandInt(30, 120);
      var created: Day := account.createdAt - back;
      var deal := Deal(DealId(dealId), Some(account.id), dealValue, ClosedWon, created,
                       account.createdAt, account.createdAt - created, account.segment);
      deals := deals + [deal];
      dealId := dealId + 1;
    }
    for i := 0 to NumLostDeals
      invariant dealId == |deals| + 1 && |deals| == |accounts| + i
      invariant forall k :: 0 <= k < |accounts| ==> WonDealOf(deals[k], accounts[k], k + 1)
      invariant forall j :: |accounts| <= j < |deals| ==> LostDeal(deals[j], j + 1)
    {
      var segment := np.WeightedChoice(Segments, SegmentWeights);
      var offset := py.RandInt(0, EndDate - StartDate);
      var created: Day := StartDate + offset;
      var dealValue := py.RandInt(5000, 100000);
      var closeAfter := py.RandInt(20, 90);
      var cycle := py.RandInt(20, 90);
      var deal := Deal(DealId(dealId), None, dealValue, ClosedLost, created, created + closeAfter, cycle, segment);
      deals := deals + [deal];
      dealId := dealId + 1;
    }
  }

  // ---------------------------------------------------------------------------
  // generate_product_events

  /** `(END_DATE - activation_date).days // 7`: the number of week offsets tried after an
      activation on day act (none when it is negative). Python's `//` floors, as Dafny's
      `/` does for a positive divisor. Weekly events are tried exactly when the activation
      is at least a week before the horizon's last day; one on END - 7 still gets one try,
      on its own day. */
  function WeeksAfter(act: int): (weeks: int)
    ensures weeks > 0 <==> act <= EndDate - 7
    ensures act == EndDate - 7 ==> weeks == 1
    ensures 7 * weeks <= EndDate - act
  {
    (EndDate - act) / 7
  }

  /** Event e is the activation of user u, 1 to 14 days after the user was created. */
  ghost predicate ActivationOf(e: ProductEvent, u: User) {
    e.eventType == Activation && u.createdAt + 1 <= e.timestamp <= u.createdAt + 14
  }

  /** Event e is a weekly-active event a whole number of weeks w after the activation day
      act, with w below WeeksAfter(act). */
  ghost predicate WeeklyAfter(e: ProductEvent, act: int) {
    && e.eventType == WeeklyActive
    && act <= e.timestamp
    && (e.timestamp - act) % 7 == 0
    && e.timestamp - act < 7 * WeeksAfter(act)
  }

  /** Every weekly event falls on or before END - 7, so a week of activity always fits
      in the horizon. */
  lemma WeeklyBeforeHorizonEnd(e: ProductEvent, act: int)
    requires WeeklyAfter(e, act)
    ensures e.timestamp <= EndDate - 7
  {
    var w := (e.timestamp - act) / 7;
    assert e.timestamp - act == 7 * w;
  }

  /** Rows lo .. hi-1 of `events` are user u's: nothing, or its activation followed by
      weekly events in strictly increasing time. */
  ghost predicate EventGroup(events: seq<ProductEvent>, lo: nat, hi: nat, u: User) {
    && lo <= hi <= |events|
    && (forall j :: lo <= j < hi ==> events[j].userId == u.id && events[j].accountId == u.accountId)
    && (lo < hi ==> ActivationOf(events[lo], u))
    && (forall j :: lo < j < hi ==> WeeklyAfter(events[j], events[lo].timestamp))
    && (forall j, k :: lo < j < k < hi ==> events[j].timestamp < events[k].timestamp)
  }

  /** A user has at most WeeksAfter(act) weekly events: they are distinct whole weeks
      below that count. */
  lemma {:induction false} WeeklyCountBound(events: seq<ProductEvent>, lo: nat, hi: nat, u: User)
    requires EventGroup(events, lo, hi, u) && lo < hi
    ensures hi - lo - 1 <= if WeeksAfter(events[lo].timestamp) < 0 then 0 else WeeksAfter(events[lo].timestamp)
  {
    var act := events[lo].timestamp;
    // The k-th weekly event is at least k weeks after the activation.
    var k := 1;
    while k < hi - lo
      invariant 1 <= k <= hi - lo
      invariant k > 1 ==> events[lo + k - 1].timestamp - act >= 7 * (k - 2)
    {
      if k > 1 {
        var p := events[lo + k - 1].timestamp - act;
        var q := events[lo + k].timestamp - act;
        assert p < q && p % 7 == 0 && q % 7 == 0;
        assert q >= p + 7 by {
          assert p == 7 * (p / 7) && q == 7 * (q / 7);
        }
      }
      k := k + 1;
    }
    if hi - lo > 1 {
      assert WeeklyAfter(events[hi - 1], act);
    }
  }

  /** A user's events, numbered on from `first`, shifted into place at the end of the
      table keep their shape. */
  lemma AppendEventGroup(events: seq<ProductEvent>, evs: seq<ProductEvent>, u: User, first: nat)
    requires first == |events| && EventGroup(evs, 0, |evs|, u)
    requires forall t :: 0 <= t < |evs| ==> evs[t].id == EventId(first + t + 1)
    ensures EventGroup(events + evs, |events|, |events| + |evs|, u)
    ensures forall j :: |events| <= j < |events| + |evs| ==> (events + evs)[j].id == EventId(j + 1)
  {
    var next := events + evs;
    assert forall j :: |events| <= j < |next| ==> next[j] == evs[j - |events|];
  }

  /** Appending any rows keeps the groups already in the table. */
  lemma EventGroupFrame(events: seq<ProductEvent>, more: seq<ProductEvent>, lo: nat, hi: nat, u: User)
    requires EventGroup(events, lo, hi, u)
    ensures EventGroup(events + more, lo, hi, u)
  {
    var next := events + more;
    assert forall j :: lo <= j < hi ==> next[j] == events[j];
  }

  /** The events table after generate_product_events has handled users 0 .. a-1. */
  ghost predicate EventsSoFar(events: seq<ProductEvent>, users: seq<User>, offsets: seq<nat>, a: nat) {
    && a <= |users|
    && |offsets| == a + 1
    && offsets[0] == 0
    && offsets[a] == |events|
    && (forall i, j :: 0 <= i <= j <= a ==> offsets[i] <= offsets[j])
    && (forall j :: 0 <= j < |events| ==> events[j].id == EventId(j + 1))
    && (forall i :: 0 <= i < a ==> EventGroup(events, offsets[i], offsets[i + 1], users[i]))
  }

  lemma AddEventGroup(events: seq<ProductEvent>, users: seq<User>, offsets: seq<nat>, a: nat, evs: seq<ProductEvent>)
    requires EventsSoFar(events, users, offsets, a) && a < |users|
    requires EventGroup(evs, 0, |evs|, users[a])
    requires forall t :: 0 <= t < |evs| ==> evs[t].id == EventId(|events| + t + 1)
    ensures EventsSoFar(events + evs, users, offsets + [|events| + |evs|], a + 1)
  {
    var next := offsets + [|events| + |evs|];
    assert forall i :: 0 <= i <= a ==> next[i] == offsets[i];
    AppendEventGroup(events, evs, users[a], |events|);
    forall i | 0 <= i < a
      ensures EventGroup(events + evs, offsets[i], offsets[i + 1], users[i])
    {
      EventGroupFrame(events, evs, offsets[i], offsets[i + 1], users[i]);
    }
    assert forall j :: 0 <= j < |events| ==> (events + evs)[j] == events[j];
  }

  /** The body of generate_product_events for one user: with probability 0.85 an
      activation 1 to 14 days after the user's creation, then a 0.7 chance of a
      weekly-active event at each whole week offset before WeeksAfter. */
  method UserEvents(user: User, first: nat, py: Rng) returns (evs: seq<ProductEvent>)
    modifies py
    ensures EventGroup(evs, 0, |evs|, user)
    ensures forall t :: 0 <= t < |evs| ==> evs[t].id == EventId(first + t + 1)
  {
    evs := [];
    var eventId := first + 1;
    var u := py.Random();
    if u < 0.85 {
      var later := py.RandInt(1, 14);
      var activation: Day := user.createdAt + later;
      evs := [ProductEvent(EventId(eventId), user.id, user.accountId, Activation, activation)];
      eventId := eventId + 1;
      var weeks := WeeksAfter(activation);
      var w := 0;
      while w < weeks
        invariant 0 <= w
        invariant eventId == first + |evs| + 1
        invariant EventGroup(evs, 0, |evs|, user) && 0 < |evs| && evs[0].timestamp == activation
        invariant forall t :: 0 <= t < |evs| ==> evs[t].id == EventId(first + t + 1)
        invariant forall t :: 0 < t < |evs| ==> evs[t].timestamp < activation + 7 * w
      {
        var v := py.Random();
        if v < 0.7 {
          var weekly := ProductEvent(EventId(eventId), user.id, user.accountId, WeeklyActive, activation + 7 * w);
          AddWeekly(evs, user, first, eventId, weekly);
          evs := evs + [weekly];
          eventId := eventId + 1;
        }
        w := w + 1;
      }
    }
  }

  lemma AddWeekly(evs: seq<ProductEvent>, user: User, first: nat, n: nat, e: ProductEvent)
    requires EventGroup(evs, 0, |evs|, user) && 0 < |evs|
    requires forall t :: 0 <= t < |evs| ==> evs[t].id == EventId(first + t + 1)
    requires n == first + |evs| + 1 && e.id == EventId(n)
    requires e.userId == user.id && e.accountId == user.accountId
    requires WeeklyAfter(e, evs[0].timestamp)
    requires forall t :: 0 < t < |evs| ==> evs[t].timestamp < e.timestamp
    ensures EventGroup(evs + [e], 0, |evs| + 1, user)
    ensures forall t :: 0 <= t < |evs| + 1 ==> (evs + [e])[t].id == EventId(first + t + 1)
  {
    var next := evs + [e];
    assert forall t :: 0 <= t < |evs| ==> next[t] == evs[t];
  }

  method GenerateProductEvents(users: seq<User>, py: Rng)
    returns (events: seq<ProductEvent>, ghost offsets: seq<nat>)
    modifies py
    ensures Groups(offsets, |users|, |events|)
    ensures forall j :: 0 <= j < |events| ==> events[j].id == EventId(j + 1)
    ensures forall i :: 0 <= i < |users| ==> EventGroup(events, offsets[i], offsets[i + 1], users[i])
  {
    events := [];
    offsets := [0];
    for a := 0 to |users|
      invariant EventsSoFar(events, users, offsets, a)
    {
      var evs := UserEvents(users[a], |events|, py);
      AddEventGroup(events, users, offsets, a, evs);
      events := events + evs;
      offsets := offsets + [|events|];
    }
  }

  // ---------------------------------------------------------------------------
  // generate_support_tickets

  /** The hours from a ticket's creation to its resolution. */
  function ElapsedHours(t: SupportTicket): real {
    (t.resolvedAt - t.createdAt as real) * 24.0
  }

  /** Ticket t is one of account a's, numbered n: opened between the account's creation
      and the horizon's end, resolved after 0.5 to 1.5 times its severity's SLA, breached
      exactly when the elapsed time exceeds the SLA, with the elapsed time rounded to a
      tenth of an hour for display. */
  ghost predicate TicketOf(t: SupportTicket, a: Account, n: nat) {
    && t.id == TicketId(n)
    && t.accountId == a.id
    && a.createdAt <= t.createdAt <= EndDate
    && t.slaHours == SlaHours(t.severity)
    && 0.5 * t.slaHours as real <= ElapsedHours(t) <= 1.5 * t.slaHours as real
    && t.resolutionHours == RoundToTenths(ElapsedHours(t))
    && (t.slaBreached <==> ElapsedHours(t) > t.slaHours as real)
  }

  /** Tickets opened so far for account a, numbered on from `first`. */
  ghost predicate TicketGroup(tks: seq<SupportTicket>, a: Account, first: nat) {
    forall t :: 0 <= t < |tks| ==> TicketOf(tks[t], a, first + t + 1)
  }

  /** The tickets table after generate_support_tickets has handled accounts 0 .. a-1, each
      with 1 to 20 tickets. */
  ghost predicate TicketsSoFar(tickets: seq<SupportTicket>, accounts: seq<Account>, offsets: seq<nat>, a: nat) {
    && a <= |accounts|
    && |offsets| == a + 1
    && offsets[0] == 0
    && offsets[a] == |tickets|
    && (forall i, j :: 0 <= i <= j <= a ==> offsets[i] <= offsets[j])
    && (forall i :: 0 <= i < a ==> 1 <= offsets[i + 1] - offsets[i] <= 20)
    && (forall i, j :: 0 <= i < a && offsets[i] <= j < offsets[i + 1] ==> TicketOf(tickets[j], accounts[i], j + 1))
  }

  lemma AddTicket(tks: seq<SupportTicket>, a: Account, first: nat, n: nat, t: SupportTicket)
    requires TicketGroup(tks, a, first)
    requires n == first + |tks| + 1 && TicketOf(t, a, n)
    ensures TicketGroup(tks + [t], a, first)
  {
    var next := tks + [t];
    assert forall k :: 0 <= k < |tks| ==> next[k] == tks[k];
  }

  lemma AddTicketGroup(tickets: seq<SupportTicket>, accounts: seq<Account>, offsets: seq<nat>, a: nat, tks: seq<SupportTicket>)
    requires TicketsSoFar(tickets, accounts, offsets, a) && a < |accounts|
    requires TicketGroup(tks, accounts[a], |tickets|) && 1 <= |tks| <= 20
    ensures TicketsSoFar(tickets + tks, accounts, offsets + [|tickets| + |tks|], a + 1)
  {
    var next := offsets + [|tickets| + |tks|];
    var all := tickets + tks;
    assert forall i :: 0 <= i <= a ==> next[i] == offsets[i];
    assert forall j :: 0 <= j < |tickets| ==> all[j] == tickets[j];
    assert forall j :: |tickets| <= j < |all| ==> all[j] == tks[j - |tickets|];
  }

  /** One ticket of generate_support_tickets, numbered n, for an account created by the
      horizon's end. */
  method DrawTicket(account: Account, n: nat, py: Rng, np: Rng) returns (ticket: SupportTicket)
    requires account.createdAt <= EndDate
    modifies py, np
    ensures TicketOf(ticket, account, n)
  {
    var offset := py.RandInt(0, EndDate - account.createdAt);
    var created: Day := account.createdAt + offset;
    var severity := np.WeightedChoice(Severities, SeverityWeights);
    var category := np.Choice(SupportCategories);
    var sla := SlaHours(severity);
    var factor := py.Uniform(0.5, 1.5);
    var hours := sla as real * factor;
    ticket := SupportTicket(TicketId(n), account.id, category, severity, created,
                            created as real + hours / 24.0, sla, RoundToTenths(hours), hours > sla as real);
    assert ElapsedHours(ticket) == hours;
  }

  /** The body of generate_support_tickets for one account: 1 to 20 tickets, numbered on
      from `first`. */
  method AccountTickets(account: Account, first: nat, py: Rng, np: Rng) returns (tks: seq<SupportTicket>)
    requires account.createdAt <= EndDate
    modifies py, np
    ensures 1 <= |tks| <= 20 && TicketGroup(tks, account, first)
  {
    tks := [];
    var ticketId := first + 1;
    var numTickets := py.RandInt(1, 20);
    for k := 0 to numTickets
      invariant ticketId == first + |tks| + 1 && |tks| == k
      invariant TicketGroup(tks, account, first)
    {
      var ticket := DrawTicket(account, ticketId, py, np);
      AddTicket(tks, account, first, ticketId, ticket);
      tks := tks + [ticket];
      ticketId := ticketId + 1;
    }
  }

  /** Ticket dates are drawn up to the horizon's end from the account's creation, so no
      account may be created after it (`randint` rejects an empty range). */
  method GenerateSupportTickets(accounts: seq<Account>, py: Rng, np: Rng)
    returns (tickets: seq<SupportTicket>, ghost offsets: seq<nat>)
    requires forall i :: 0 <= i < |accounts| ==> accounts[i].createdAt <= EndDate
    modifies py, np
    ensures Groups(offsets, |accounts|, |tickets|)
    ensures forall i :: 0 <= i < |accounts| ==> 1 <= offsets[i + 1] - offsets[i] <= 20
    ensures forall i, j :: 0 <= i < |accounts| && offsets[i] <= j < offsets[i + 1] ==>
      TicketOf(tickets[j], accounts[i], j + 1)
  {
    tickets := [];
    offsets := [0];
    for a := 0 to |accounts|
      invariant TicketsSoFar(tickets, accounts, offsets, a)
    {
      var tks := AccountTickets(accounts[a], |tickets|, py, np);
      AddTicketGroup(tickets, accounts, offsets, a, tks);
      offsets := offsets + [|tickets| + |tks|];
      tickets := tickets + tks;
    }
  }

  /** Rounding for display can only hide a breach, never invent one: unless the elapsed
      time rounds to exactly the SLA, the rounded value and the exact one are on the same
      side of it. */
  lemma BreachAgreesUnlessRoundedToSla(hours: real, sla: int)
    requires RoundToTenths(hours) != sla as real
    ensures hours > sla as real <==> RoundToTenths(hours) > sla as real
  {
    // The rounded value is a whole number of tenths, so it is a tenth or more away
    // from the SLA, while the exact value is within 0.05 of it.
    var r := RoundToTenths(hours);
    var tenths := (r * 10.0).Floor;
    assert r == tenths as real / 10.0;
    if tenths < sla * 10 {
      assert tenths <= sla * 10 - 1;
      assert r <= sla as real - 0.1;
    } else {
      assert tenths != sla * 10;
      assert r >= sla as real + 0.1;
    }
  }

  /** A Low-severity ticket resolved after 48.04 hours is breached, though its rounded
      resolution time reads 48.0, exactly the SLA. */
  lemma BreachHiddenByRounding()
    ensures RoundToTenths(48.04) == 48.0 && 48.04 > SlaHours(Low) as real
  {
    assert (48.04 * 10.0).Floor == 480;
  }

  // ---------------------------------------------------------------------------
  // generate_marketing_spend

  /** The horizon has 18 calendar months, July 2024 to December 2025. */
  lemma HorizonMonthCount()
    ensures |HorizonMonths()| == 18
  {
    HorizonOrdinals();
    FromToOrdinal(Date(2024, 7, 1));
    FromToOrdinal(Date(2025, 12, 31));
    MonthStartsCount(StartDate, EndDate);
  }

  /** A channel's planned spend for a month: its base, 1.3 times it in the fourth quarter. */
  function PlannedSpend(channel: Channel, month: Day): (planned: real)
    ensures 0.0 < planned
  {
    BaseSpend(channel) as real * (if IsQ4(MonthOf(month)) then 1.3 else 1.0)
  }

  /** A uniform factor of [0.8, 1.2] keeps a non-negative spend within 20% of its plan. */
  lemma SpendWithinBand(planned: real, factor: real)
    requires 0.0 <= planned && 0.8 <= factor <= 1.2
    ensures 0.8 * planned <= planned * factor <= 1.2 * planned
  {
    assert 0.0 <= planned * (factor - 0.8);
    assert 0.0 <= planned * (1.2 - factor);
  }

  /** `int(spend / cost_per_lead)` for a non-negative spend: the whole number of leads. */
  function Leads(spend: real, costPerLead: int): (leads: int)
    requires 0.0 <= spend && 0 < costPerLead
    ensures 0 <= leads
    ensures leads as real * costPerLead as real <= spend < (leads as real + 1.0) * costPerLead as real
  {
    FloorOfQuotient(spend, costPerLead as real);
    (spend / costPerLead as real).Floor
  }

  /** The whole part of x / d, for x >= 0 and d > 0, is the number of whole d's in x. */
  lemma FloorOfQuotient(x: real, d: real)
    requires 0.0 <= x && 0.0 < d
    ensures 0 <= (x / d).Floor
    ensures (x / d).Floor as real * d <= x < ((x / d).Floor as real + 1.0) * d
  {
    var q := x / d;
    assert q * d == x;
    assert 0.0 <= q;
    WholeMultiples(x, d, q, q.Floor as real);
  }

  /** With 80 to 150 dollars per lead, the lead count is bounded by the spend both ways. */
  lemma LeadsBounds(spend: real, costPerLead: int)
    requires 0.0 <= spend && 80 <= costPerLead <= 150
    ensures Leads(spend, costPerLead) as real * 80.0 <= spend
    ensures spend < (Leads(spend, costPerLead) as real + 1.0) * 150.0
  {
    var n := Leads(spend, costPerLead) as real;
    var d := costPerLead as real;
    ProductSign(n, d - 80.0);
    ProductSign(n + 1.0, 150.0 - d);
  }

  /** If x is q times d, then for a whole part f of q, x lies between f and f + 1 times d. */
  lemma WholeMultiples(x: real, d: real, q: real, f: real)
    requires 0.0 < d && q * d == x && f <= q < f + 1.0
    ensures f * d <= x < (f + 1.0) * d
  {
    ProductMonotone(f, q, d);
    BelowMultiple(x, d, q, f + 1.0);
  }

  /** If x is q times d and q is below g, then x is below g times d. */
  lemma BelowMultiple(x: real, d: real, q: real, g: real)
    requires 0.0 < d && q * d == x && q < g
    ensures x < g * d
  {
    ProductMonotone(q, g, d);
  }

  /** Multiplying by a positive number keeps the order of two numbers. */
  lemma ProductMonotone(a: real, b: real, d: real)
    requires 0.0 < d
    ensures a <= b ==> a * d <= b * d
    ensures a < b ==> a * d < b * d
  {
  }

  /** Sign rules for a product, with the product multiplied out. */
  lemma ProductSign(a: real, b: real)
    requires 0.0 <= b
    ensures 0.0 <= a ==> 0.0 <= a * b
    ensures 0.0 < a && 0.0 < b ==> 0.0 < a * b
  {
  }

  /** `leads` is `int(spend / cost)` for some whole cost per lead of 80 to 150 dollars. */
  ghost predicate LeadsAtSomeCost(spend: real, leads: int) {
    0.0 <= spend && exists cost :: 80 <= cost <= 150 && leads == Leads(spend, cost)
  }

  /** Record r is the spend of `channel` in the month starting on `month`: within 20% of
      the planned spend, with the leads it buys at a cost per lead of 80 to 150 dollars
      (rounded down), and a campaign named after the channel and the month. */
  ghost predicate SpendRecordOf(r: MarketingSpend, month: Day, channel: Channel) {
    && r.month == month
    && r.channel == channel
    && 0.8 * PlannedSpend(channel, month) <= r.spend <= 1.2 * PlannedSpend(channel, month)
    && LeadsAtSomeCost(r.spend, r.leadsGenerated)
    && 0 <= r.leadsGenerated
    && r.leadsGenerated as real * 80.0 <= r.spend < (r.leadsGenerated as real + 1.0) * 150.0
    && r.campaignName == ChannelName(channel) + " " + MonthLabel(month)
  }

  /** Records 0 .. |records|-1 cover the months of `months` in order, the five channels
      in order within each month. */
  ghost predicate SpendSoFar(records: seq<MarketingSpend>, months: seq<Day>) {
    forall k :: 0 <= k < |records| ==>
      k / 5 < |months| && SpendRecordOf(records[k], months[k / 5], MarketingChannels[k % 5])
  }

  lemma AddMonthSpend(records: seq<MarketingSpend>, months: seq<Day>, m: nat, recs: seq<MarketingSpend>)
    requires SpendSoFar(records, months) && m < |months| && |records| == 5 * m
    requires |recs| == 5 && forall c :: 0 <= c < 5 ==> SpendRecordOf(recs[c], months[m], MarketingChannels[c])
    ensures SpendSoFar(records + recs, months)
  {
    var next := records + recs;
    forall k | 0 <= k < |next|
      ensures k / 5 < |months| && SpendRecordOf(next[k], months[k / 5], MarketingChannels[k % 5])
    {
      if k < |records| {
        assert next[k] == records[k];
      } else {
        var c := k - 5 * m;
        assert next[k] == recs[c];
        assert k / 5 == m && k % 5 == c;
      }
    }
  }

  /** The draws behind one record: the spend, a uniform 80% to 120% of the plan, and the
      leads it buys at a uniform whole cost of 80 to 150 dollars per lead. */
  method DrawSpend(planned: real, py: Rng) returns (spend: real, leads: int, ghost cost: int)
    requires 0.0 < planned
    modifies py
    ensures 0.8 * planned <= spend <= 1.2 * planned
    ensures 80 <= cost <= 150 && leads == Leads(spend, cost)
    ensures 0 <= leads && leads as real * 80.0 <= spend < (leads as real + 1.0) * 150.0
  {
    var factor := py.Uniform(0.8, 1.2);
    spend := planned * factor;
    SpendWithinBand(planned, factor);
    var costPerLead := py.RandInt(80, 150);
    leads := Leads(spend, costPerLead);
    LeadsBounds(spend, costPerLead);
    cost := costPerLead;
  }

  /** One record of generate_marketing_spend: the spend of `channel` in the month
      starting on `month`. */
  method ChannelSpend(month: Day, channel: Channel, py: Rng) returns (r: MarketingSpend)
    modifies py
    ensures SpendRecordOf(r, month, channel)
  {
    var spend, leads, cost := DrawSpend(PlannedSpend(channel, month), py);
    r := MarketingSpend(month, channel, spend, leads, ChannelName(channel) + " " + MonthLabel(month));
  }

  /** The inner loop of generate_marketing_spend: one record per channel for the month
      starting on `month`. */
  method MonthSpend(month: Day, py: Rng) returns (recs: seq<MarketingSpend>)
    modifies py
    ensures |recs| == |MarketingChannels|
    ensures forall c :: 0 <= c < |recs| ==> SpendRecordOf(recs[c], month, MarketingChannels[c])
  {
    recs := [];
    for c := 0 to |MarketingChannels|
      invariant |recs| == c
      invariant forall k :: 0 <= k < c ==> SpendRecordOf(recs[k], month, MarketingChannels[k])
    {
      var r := ChannelSpend(month, MarketingChannels[c], py);
      recs := recs + [r];
    }
  }

  /** The loops of generate_marketing_spend over any list of months. */
  method SpendOverMonths(months: seq<Day>, py: Rng) returns (records: seq<MarketingSpend>)
    modifies py
    ensures |records| == 5 * |months| && SpendSoFar(records, months)
  {
    records := [];
    for m := 0 to |months|
      invariant |records| == 5 * m && SpendSoFar(records, months)
    {
      var recs := MonthSpend(months[m], py);
      AddMonthSpend(records, months, m, recs);
      records := records + recs;
    }
  }

  /** generate_marketing_spend: for each month of the horizon, one record per channel. */
  method GenerateMarketingSpend(py: Rng) returns (records: seq<MarketingSpend>)
    modifies py
    ensures |records| == |HorizonMonths()| * |MarketingChannels| == 90
    ensures forall k :: 0 <= k < |records| ==>
      SpendRecordOf(records[k], HorizonMonths()[k / 5], MarketingChannels[k % 5])
  {
    HorizonMonthCount();
    records := SpendOverMonths(HorizonMonths(), py);
  }

  // ---------------------------------------------------------------------------
  // The whole run

  /** The eight generators in `main()`'s order, on shared random streams. The accounts'
      creation days lie in the horizon, which is what the deals and tickets generators
      need of them. */
  method GenerateDataset(py: Rng, np: Rng, fake: Faker)
    returns (accounts: seq<Account>, users: seq<User>, subscriptions: seq<Subscription>,
             invoices: seq<Invoice>, payments: seq<Payment>, deals: seq<Deal>,
             events: seq<ProductEvent>, tickets: seq<SupportTicket>, spend: seq<MarketingSpend>)
    modifies py, np, fake
    ensures |accounts| == |subscriptions| == NumAccounts
    ensures NumAccounts <= |users| && NumAccounts <= |tickets| <= 20 * NumAccounts
    ensures |invoices| == |payments|
    ensures |deals| == NumAccounts + NumLostDeals
    ensures |spend| == 90
  {
    accounts := GenerateAccounts(py, np, fake);
    ghost var userOffsets, churnDays, invoiceOffsets, eventOffsets, ticketOffsets;
    users, userOffsets := GenerateUsers(accounts, np, py, fake);
    NonEmptyGroupsCount(userOffsets, |accounts|, |users|);
    subscriptions, churnDays := GenerateSubscriptions(accounts, np, py);
    invoices, payments, invoiceOffsets := GenerateInvoicesPayments(subscriptions, py, np);
    deals := GenerateCrmDeals(accounts, py, np);
    events, eventOffsets := GenerateProductEvents(users, py);
    tickets, ticketOffsets := GenerateSupportTickets(accounts, py, np);
    GroupSizeBounds(ticketOffsets, |accounts|, |tickets|);
    spend := GenerateMarketingSpend(py);
  }

  /** With 1 to 20 rows per group, a table has between 1 and 20 rows per parent. */
  lemma {:induction false} GroupSizeBounds(offsets: seq<nat>, parents: nat, total: nat)
    requires Groups(offsets, parents, total)
    requires forall i :: 0 <= i < parents ==> 1 <= offsets[i + 1] - offsets[i] <= 20
    ensures parents <= total <= 20 * parents
  {
    var k := 0;
    while k < parents
      invariant 0 <= k <= parents && k <= offsets[k] <= 20 * k
    {
      k := k + 1;
    }
  }
}
