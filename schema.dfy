/** The constants, categories, lookup tables and row types of the synthetic
    "SaaS go-to-market" dataset (data_gen/generator.py). Every table the generator
    emits is a sequence of one of the row datatypes below, in generation order. */
module Schema {
  import opened Calendar
  import Ids

  datatype Option<T> = None | Some(value: T)

  // ---------------------------------------------------------------------------
  // Horizon and sizes

  /** 2024-07-01, the first day of the generation horizon, as an ordinal (see
      Generator.HorizonOrdinals). */
  const StartDate: Day := 739068
  /** 2025-12-31, the last day of the generation horizon. */
  const EndDate: Day := 739616

  const NumAccounts: nat := 500
  const AvgUsersPerAccount: nat := 8

  // ---------------------------------------------------------------------------
  // Categories, listed in the program's order

  datatype Segment = Enterprise | MidMarket | Smb
  const Segments: seq<Segment> := [Enterprise, MidMarket, Smb]
  const SegmentWeights: seq<real> := [0.15, 0.35, 0.50]

  datatype CompanySize = Size1To50 | Size51To200 | Size201To1000 | Size1000Plus
  const CompanySizes: seq<CompanySize> := [Size1To50, Size51To200, Size201To1000, Size1000Plus]
  const CompanySizeWeights: seq<real> := [0.4, 0.3, 0.2, 0.1]

  datatype Region = NorthAmerica | Emea | Apac | Latam
  const Regions: seq<Region> := [NorthAmerica, Emea, Apac, Latam]

  datatype Channel = GoogleAds | LinkedIn | ContentMarketing | Events | Referral
  const MarketingChannels: seq<Channel> := [GoogleAds, LinkedIn, ContentMarketing, Events, Referral]
  /** The same list object as MarketingChannels, so that acquisition cost can be attributed. */
  const AcquisitionChannels: seq<Channel> := MarketingChannels

  datatype PlanTier = Starter | Professional | Business | EnterprisePlan
  const PlanTiers: seq<PlanTier> := [Starter, Professional, Business, EnterprisePlan]
  const PlanTierWeights: seq<real> := [0.3, 0.4, 0.2, 0.1]

  /** The 'User' role is StandardUser here, to keep it apart from the User row type. */
  datatype Role = Admin | StandardUser | Viewer
  const Roles: seq<Role> := [Admin, StandardUser, Viewer]
  const RoleWeights: seq<real> := [0.2, 0.6, 0.2]

  datatype SupportCategory = Technical | Billing | FeatureRequest | BugReport
  const SupportCategories: seq<SupportCategory> := [Technical, Billing, FeatureRequest, BugReport]

  datatype Severity = Low | Medium | High | Critical
  const Severities: seq<Severity> := [Low, Medium, High, Critical]
  const SeverityWeights: seq<real> := [0.5, 0.3, 0.15, 0.05]

  datatype PaymentMethod = CreditCard | Ach | WireTransfer
  const PaymentMethods: seq<PaymentMethod> := [CreditCard, Ach, WireTransfer]

  datatype SubscriptionStatus = Active | Cancelled
  datatype Stage = ClosedWon | ClosedLost
  datatype EventType = Activation | WeeklyActive

  // ---------------------------------------------------------------------------
  // Rows. Days are ordinals; invoice and payment amounts are in cents.

  datatype Account = Account(
    id: string, name: string, segment: Segment, companySize: CompanySize, region: Region,
    acquisitionChannel: Channel, createdAt: Day, status: string)

  datatype User = User(id: string, accountId: string, email: string, role: Role, createdAt: Day)

  datatype Subscription = Subscription(
    id: string, accountId: string, planTier: PlanTier, startDate: Day, endDate: Option<Day>,
    status: SubscriptionStatus)

  datatype Invoice = Invoice(
    id: string, subscriptionId: string, accountId: string, invoiceDate: Day, amountCents: int,
    status: string)

  datatype Payment = Payment(
    id: string, invoiceId: string, paymentDate: Day, amountCents: int, paymentMethod: PaymentMethod)

  datatype Deal = Deal(
    id: string, accountId: Option<string>, dealValue: int, stage: Stage, createdDate: Day,
    closedDate: Day, salesCycleDays: int, segment: Segment)

  datatype ProductEvent = ProductEvent(
    id: string, userId: string, accountId: string, eventType: EventType, timestamp: Day)

  /** `resolvedAt` is a day ordinal with a fractional part (hours / 24). */
  datatype SupportTicket = SupportTicket(
    id: string, accountId: string, category: SupportCategory, severity: Severity,
    createdAt: Day, resolvedAt: real, slaHours: int, resolutionHours: real, slaBreached: bool)

  datatype MarketingSpend = MarketingSpend(
    month: Day, channel: Channel, spend: real, leadsGenerated: int, campaignName: string)

  // ---------------------------------------------------------------------------
  // Identifiers: prefix and zero-padded counter, one width per entity

  function AccountId(n: nat): string { Ids.FormatId("ACC", 5, n) }
  function UserId(n: nat): string { Ids.FormatId("USR", 6, n) }
  function SubscriptionId(n: nat): string { Ids.FormatId("SUB", 5, n) }
  function InvoiceId(n: nat): string { Ids.FormatId("INV", 6, n) }
  function PaymentId(n: nat): string { Ids.FormatId("PAY", 6, n) }
  function DealId(n: nat): string { Ids.FormatId("DEAL", 5, n) }
  function EventId(n: nat): string { Ids.FormatId("EVT", 8, n) }
  function TicketId(n: nat): string { Ids.FormatId("TKT", 6, n) }

  // ---------------------------------------------------------------------------
  // Lookup tables

  /** `plan_mrr`, in cents. */
  function PlanMrrCents(tier: PlanTier): int {
    match tier
    case Starter => 9900
    case Professional => 29900
    case Business => 79900
    case EnterprisePlan => 249900
  }

  /** The SLA target of a severity, in hours. */
  function SlaHours(severity: Severity): int {
    match severity
    case Low => 48
    case Medium => 24
    case High => 8
    case Critical => 2
  }

  /** The monthly base spend of a marketing channel, in dollars. */
  function BaseSpend(channel: Channel): int {
    match channel
    case GoogleAds => 25000
    case LinkedIn => 18000
    case ContentMarketing => 12000
    case Events => 30000
    case Referral => 5000
  }

  function ChannelName(channel: Channel): string {
    match channel
    case GoogleAds => "Google Ads"
    case LinkedIn => "LinkedIn"
    case ContentMarketing => "Content Marketing"
    case Events => "Events"
    case Referral => "Referral"
  }

  /** The bounds of `random.randint` for the value of a won deal, by segment. */
  function WonDealValueLow(segment: Segment): int {
    match segment
    case Enterprise => 50000
    case MidMarket => 15000
    case Smb => 3000
  }

  function WonDealValueHigh(segment: Segment): int {
    match segment
    case Enterprise => 150000
    case MidMarket => 50000
    case Smb => 15000
  }

  /** `xs.index(x)`: the position of the first occurrence of x. */
  function IndexOf<T(==)>(xs: seq<T>, x: T): (i: nat)
    requires x in xs
    ensures i < |xs| && xs[i] == x
    ensures forall j :: 0 <= j < i ==> xs[j] != x
  {
    if xs[0] == x then 0 else 1 + IndexOf(xs[1..], x)
  }

  // ---------------------------------------------------------------------------
  // Calendar helpers the generator uses

  predicate IsQ4(month: int) {
    month == 10 || month == 11 || month == 12
  }

  function MonthAbbreviation(month: int): string
    requires 1 <= month <= 12
  {
    ["Jan", "Feb", "Mar", "Apr", "May", "Jun", "Jul", "Aug", "Sep", "Oct", "Nov", "Dec"][month - 1]
  }

  /** `strftime("%b %Y")`. */
  function MonthLabel(d: Day): string {
    var date := FromOrdinal(d);
    MonthAbbreviation(date.month) + " " + Ids.ZeroPad(Ids.Digits(date.year), 4)
  }

  /** The calendar months of the horizon, `pd.date_range(START_DATE, END_DATE, freq='MS')`. */
  function HorizonMonths(): seq<Day> {
    MonthStarts(StartDate, EndDate)
  }

  // ---------------------------------------------------------------------------
  // Rounding

  /** `round(x, 1)` on the exact value: to the nearest tenth, halves to the even tenth. */
  function RoundToTenths(x: real): (r: real)
    ensures -0.05 <= r - x <= 0.05
    ensures (r * 10.0).Floor as real == r * 10.0
  {
    var t := x * 10.0;
    var f := t.Floor;
    var frac := t - f as real;
    var n := if frac > 0.5 then f + 1
             else if frac < 0.5 then f
             else if f % 2 == 0 then f
             else f + 1;
    n as real / 10.0
  }
}
