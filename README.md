# SaaS go-to-market data generator, modelled in Dafny

`data_gen/generator.py` builds the synthetic dataset behind a SaaS analytics dashboard:
500 B2B accounts, their users and subscriptions, monthly invoices with one payment each,
won and lost CRM deals, product activation and weekly-activity events, support tickets
with SLA targets, and monthly marketing spend per channel. The generators run in a fixed
order, and each one depends on the tables made before it. Every generator loops over its
parent rows, draws from the random streams, and appends rows to a local list while a
running counter numbers them.

This project models those eight generators as imperative Dafny methods with the same loops,
the same counters and the same draws in the same order. The two random streams, Python's
`random` (`py`) and numpy's `np.random` (`np`), and the Faker instance are objects passed
in explicitly. Each draw is a method that promises only the range of its result. The
methods' postconditions state what every run produces, whatever the draws:

- row counts;
- zero-padded sequential identifiers;
- links from each row to its parent row;
- the range of every drawn or derived value;
- the exact set of billing months of a subscription.

Modules:

- `Calendar` (calendar.dfy): proleptic Gregorian dates as Python `date.toordinal()`
  numbers, their inverse, months and years of a day, and
  `pd.date_range(lo, hi, freq='MS')` as `MonthStarts`.
- `Ids` (ids.dfy): the `f'{prefix}{n:0{width}d}'` identifier format, with its length and
  injectivity.
- `Random` (random.dfy): the random streams (`Rng`) and Faker, with the range each draw
  promises.
- `Schema` (schema.dfy): the constants of generator.py lines 18-31, the categories, the row
  types, the lookup tables (`plan_mrr`, SLA hours, base spend, deal-value ranges) and
  round-half-even to tenths.
- `Generator` (generator.dfy): the eight `generate_*` functions and the properties proved
  about them.

Days are ordinals (2024-07-01 is 739068, 2025-12-31 is 739616). Invoice and payment amounts
are integer cents, which is exact for every amount the generator can produce (the plan
prices are whole dollars and a 1.2× uplift of them is a whole number of cents). Spend,
resolution hours and ticket resolution times are exact `real`s.

Four behaviours of the code a reader may not expect, all modelled as written:

- **Invoice months.** `pd.date_range(start, end, freq='MS')` (line 134) yields only the
  firsts of months inside [start, end], so the start's own month is billed only when the
  subscription starts on the 1st. `Calendar.MonthStartsCount` and
  `Generator.BillingMonthsExact` state the count, and `Generator.NoInvoicesWithinOneMonth`
  shows a subscription can get no invoice at all.
- **Enterprise tier.** The Enterprise tier rule (line 92) indexes `PLAN_TIERS` with the
  position of 'Enterprise' in `SEGMENTS`. That gives 'Starter', not the 'Enterprise' plan
  (`Generator.EnterpriseSegmentTierIsStarter`).
- **Weekly events.** The first weekly-active try (week offset 0, line 238) falls on the
  activation day itself. An activation exactly seven days before the horizon's end still
  gets one try, so weekly events are ruled out only when the activation is later than
  END − 7 (`Generator.WeeksAfter`).
- **Lost-deal cycle.** A lost deal's `sales_cycle_days` (line 207) is a draw of its own. It
  is not the gap between its created and closed dates, which is a separate draw.

## Model

| member | source | states |
|---|---|---|
| Calendar.FromOrdinal | data_gen/generator.py:41 | the date of a day number is a valid date whose ordinal is that number, so date arithmetic by `timedelta(days=…)` is arithmetic on ordinals |
| Calendar.FromToOrdinal | data_gen/generator.py:18-19 | converting a valid date to its ordinal and back gives the same date |
| Calendar.MonthStartsExact | data_gen/generator.py:134 | `date_range(lo, hi, freq='MS')` lists, in strictly increasing order, exactly the days of [lo, hi] that are the first of a month |
| Calendar.MonthStartsCount | data_gen/generator.py:134 | it has as many entries as months after lo's month up to hi's month, plus lo's month only when lo is a first |
| Ids.FormatIdLength | data_gen/generator.py:49 | below 10^width a zero-padded identifier is always prefix length + width characters long |
| Ids.FormatIdDecimal | data_gen/generator.py:142 | an identifier starts with its prefix and its digits read back as its number |
| Ids.FormatIdInjective | data_gen/generator.py:73 | distinct counter values give distinct identifiers, so ids from one counter never repeat |
| Random.Rng.RandInt | data_gen/generator.py:41 | `random.randint(lo, hi)` returns a value of [lo, hi], both ends included |
| Random.Rng.Random | data_gen/generator.py:97 | `random.random()` returns a value of [0, 1) |
| Random.Rng.Uniform | data_gen/generator.py:268 | `random.uniform(lo, hi)` returns a value of [lo, hi] |
| Random.Rng.Choice | data_gen/generator.py:54 | `np.random.choice(xs)` returns an element of xs |
| Random.Rng.WeightedChoice | data_gen/generator.py:39 | `np.random.choice(xs, p=…)` returns an element of xs |
| Random.Faker.Company | data_gen/generator.py:50 | a company name is a non-empty string |
| Random.Faker.Email | data_gen/generator.py:75 | an e-mail address is a non-empty string |
| Schema.IndexOf | data_gen/generator.py:92 | `xs.index(x)` is the position of the first occurrence of x |
| Schema.RoundToTenths | data_gen/generator.py:278 | `round(x, 1)` is a whole number of tenths within 0.05 of x |
| Calendar.ToOrdinal | data_gen/generator.py:41 | a date's day number, as `date.toordinal()` counts it; FromOrdinal and FromToOrdinal state that it is a bijection on valid dates |
| Calendar.MonthStarts | data_gen/generator.py:134 | `pd.date_range(lo, hi, freq='MS')`; MonthStartsExact and MonthStartsCount state what it lists |
| Ids.FormatId | data_gen/generator.py:49 | `f'{prefix}{n:0{width}d}'`; FormatIdLength, FormatIdDecimal and FormatIdInjective state its properties |
| Schema.PlanMrrCents | data_gen/generator.py:122-127 | the `plan_mrr` dict, as written, in cents |
| Schema.SlaHours | data_gen/generator.py:267 | the SLA-hours dict, as written |
| Schema.BaseSpend | data_gen/generator.py:293-299 | the base-spend dict, as written |
| Schema.WonDealValueLow | data_gen/generator.py:174-178 | the lower bounds of the deal-value `randint` calls, as written |
| Schema.WonDealValueHigh | data_gen/generator.py:174-178 | the upper bounds of the deal-value `randint` calls, as written |
| Schema.MonthLabel | data_gen/generator.py:315 | `strftime("%b %Y")`: the month's three-letter name, a space and the four-digit year |
| Schema.HorizonMonths | data_gen/generator.py:20 | `MONTHS`, the month starts of the horizon; HorizonMonthCount states there are 18 |
| Generator.BillingEnd | data_gen/generator.py:131 | the end date when one is set, END_DATE otherwise |
| Random.Rng.Poisson | data_gen/generator.py:69 | `np.random.poisson(mean)`, a natural number |
| Generator.DrawCreatedDay | data_gen/generator.py:41-46 | an account's creation day, uniform over the horizon and pulled back in Q4, lies in [START_DATE, END_DATE] |
| Generator.DrawTicket | data_gen/generator.py:262-280 | one ticket of an account created by END_DATE meets every condition listed for AccountTickets |
| Generator.HorizonOrdinals | data_gen/generator.py:18-19 | START_DATE and END_DATE are the ordinals of 2024-07-01 and 2025-12-31 |
| Generator.SeasonalPullStaysInHorizon | data_gen/generator.py:44-46 | pulling a Q4 day of the horizon back by 0 to 60 days lands on or after 2024-08-02, inside the horizon |
| Generator.GenerateAccounts | data_gen/generator.py:34-60 | exactly NUM_ACCOUNTS accounts, ids ACC00001… in order, status 'Active', created within [START_DATE, END_DATE] |
| Generator.NonEmptyGroupsCount | data_gen/generator.py:69 | when every parent has at least one row there are at least as many rows as parents |
| Generator.GenerateUsers | data_gen/generator.py:63-81 | users come in consecutive non-empty groups, one per account in order; each carries its account's id and is created 0 to 30 days after it; ids USR000001… follow one counter |
| Generator.EnterpriseSegmentTierIsStarter | data_gen/generator.py:92 | the tier given to Enterprise accounts is 'Starter' |
| Generator.GenerateSubscriptions | data_gen/generator.py:84-112 | one subscription per account in order, starting on the account's creation day; Enterprise accounts get 'Starter'; a churn of 90 to 400 days sets the end date unless it passes END_DATE; 'Cancelled' exactly when an end date is set |
| Generator.BillingMonthsExact | data_gen/generator.py:130-134 | a subscription's invoice dates are exactly the firsts of months in [start, end or END_DATE], increasing, and how many there are |
| Generator.NoInvoicesWithinOneMonth | data_gen/generator.py:134 | a subscription that starts after the 1st of its billing end's month gets no invoice |
| Generator.InvoiceSubscription | data_gen/generator.py:134-160 | one invoice per billing month, in order, each for the plan price or 1.2 times it, each settled by a payment of the same amount 1 to 10 days later, INV and PAY numbered in lock step |
| Generator.GenerateInvoicesPayments | data_gen/generator.py:115-162 | as many payments as invoices; the invoices of each subscription are a consecutive block holding one invoice per billing month; payment j settles invoice j |
| Generator.GenerateCrmDeals | data_gen/generator.py:165-212 | one 'Closed Won' deal per account in order, with the account's id and segment, a value in the segment's range, closed on the account's creation day after a cycle of 30 to 120 days equal to the date gap; then 150 'Closed Lost' deals without account, created in the horizon, closed 20 to 90 days later, cycle 20 to 90; DEAL ids continue one counter |
| Generator.WeeksAfter | data_gen/generator.py:238 | the number of week offsets tried is positive exactly when the activation is on or before END_DATE − 7, is 1 at END_DATE − 7, and never reaches past the horizon |
| Generator.WeeklyBeforeHorizonEnd | data_gen/generator.py:238-245 | every weekly-active event is on or before END_DATE − 7 |
| Generator.WeeklyCountBound | data_gen/generator.py:238-247 | a user has at most as many weekly events as week offsets tried |
| Generator.UserEvents | data_gen/generator.py:222-247 | a user has no events, or an activation 1 to 14 days after creation followed by weekly events at whole weeks after it, strictly increasing, with consecutive EVT ids |
| Generator.GenerateProductEvents | data_gen/generator.py:215-249 | the events of each user form a consecutive block of that shape, users in order, ids EVT00000001… across all users |
| Generator.AccountTickets | data_gen/generator.py:259-281 | 1 to 20 tickets for the account, each created between the account's creation and END_DATE, with the severity's SLA, an elapsed time of 0.5 to 1.5 times it, breached exactly when the exact elapsed time exceeds the SLA, and the elapsed time stored rounded to tenths |
| Generator.GenerateSupportTickets | data_gen/generator.py:252-283 | the tickets of each account form a consecutive block of 1 to 20 such tickets, accounts in order, TKT ids following one counter |
| Generator.GroupSizeBounds | data_gen/generator.py:259 | with 1 to 20 rows per parent, a table has between 1 and 20 rows per parent |
| Generator.BreachAgreesUnlessRoundedToSla | data_gen/generator.py:278-279 | the breach flag and the rounded resolution time agree on which side of the SLA the ticket is, unless the rounded time equals the SLA |
| Generator.BreachHiddenByRounding | data_gen/generator.py:278-279 | a Low ticket resolved in 48.04 hours is breached though its stored resolution time is 48.0 |
| Generator.HorizonMonthCount | data_gen/generator.py:20 | the horizon has 18 months |
| Generator.PlannedSpend | data_gen/generator.py:293-303 | a channel's planned monthly spend is positive |
| Generator.SpendWithinBand | data_gen/generator.py:305 | a factor of [0.8, 1.2] keeps the spend within 20% of the plan |
| Generator.Leads | data_gen/generator.py:308 | `int(spend / cost)` is the whole number of leads: leads × cost ≤ spend < (leads + 1) × cost |
| Generator.LeadsBounds | data_gen/generator.py:308 | with a cost of 80 to 150, leads × 80 ≤ spend < (leads + 1) × 150 |
| Generator.DrawSpend | data_gen/generator.py:305-308 | the drawn spend is within 20% of the plan, and the lead count is `int(spend / cost)` for the drawn whole cost of 80 to 150 dollars, hence bounded as in LeadsBounds |
| Generator.ChannelSpend | data_gen/generator.py:293-316 | a record carries its month and channel, a spend within 20% of the planned spend (1.3 times the base in Q4), a lead count that is `int(spend / cost)` for some whole cost of 80 to 150, and the campaign name "channel Mon YYYY" |
| Generator.MonthSpend | data_gen/generator.py:291-316 | one such record per channel, in MARKETING_CHANNELS order, each with its leads `int(spend / cost)` for a cost of 80 to 150 |
| Generator.SpendOverMonths | data_gen/generator.py:290-316 | five such records per month, month-major, channel order within each month, each with its leads `int(spend / cost)` for a cost of 80 to 150 |
| Generator.GenerateMarketingSpend | data_gen/generator.py:286-318 | 18 × 5 = 90 records, record k for month k / 5 of the horizon and channel k mod 5, each with a spend within 20% of the plan and leads `int(spend / cost)` for a cost of 80 to 150 |
| Generator.GenerateDataset | data_gen/generator.py:321-346 | the generators in `main()`'s order: 500 accounts and subscriptions, at least 500 users, 500 to 10000 tickets, as many payments as invoices, 650 deals and 90 spend records |

## Left out

- Distributions are not modelled: the segment mix, the Poisson mean of 8, the 15% churn, 85% activation and 70% weekly rates, and the uplift chances. Only the range or membership of each draw is modelled. Seeded reproducibility (lines 10-13) is left out too, because Mersenne Twister and numpy's generator are replaced by a linear congruential stand-in.
- Random.Rng.WeightedChoice: only membership in the list is stated. The weights are accepted but their probabilities are not.
- Random.Rng.Poisson: promises only a natural number (no ensures beyond its type); its body is a stand-in.
- Faker output (company names, e-mail addresses) is an opaque non-empty string.
- Float representation is not modelled. `random.uniform`, the Q4 factor 1.3, the uplift 1.2 and `round` are computed on exact values, and `round(x, 1)` rounds exact halves to even.
- Generator.ChannelSpend: the spend is stored unrounded; `round(monthly_spend, 2)` at line 313 is not modelled, because the stored value is the exact one the lead count is computed from.
- Invoice and payment amounts are exact cents, so `round(mrr, 2)` at lines 146 and 155 needs no modelling.
- `resolved_at` (line 276) is a day ordinal with a fractional part, since `timedelta(hours=…)` gives a time of day; day-level timestamps are midnight datetimes, modelled as ordinals.
- Generator.GenerateCrmDeals: requires every account to be created after day 120 of the calendar, where Python's `datetime` would overflow on a date before year 1. Generator.GenerateDataset shows the accounts always satisfy it.
- Generator.GenerateSupportTickets: requires no account to be created after END_DATE, where `random.randint` would reject the empty range. GenerateDataset shows the accounts always satisfy it.
- The per-parent inner loops and per-row draws are separate methods: DrawCreatedDay, InvoiceSubscription, UserEvents, AccountTickets, DrawTicket, MonthSpend, ChannelSpend and DrawSpend. They keep the outer loops' proofs small, and they draw in the same order as the inline loops.
- The unused parameters are not threaded through: `subscriptions_df` of generate_product_events, `product_events_df` of generate_support_tickets, and `accounts_df` of generate_marketing_spend.
- The unused local lists `stages` (line 170) and `event_types` (line 220) are left out.
- `main()`'s printing and CSV writing (lines 321-370), and the output directory set-up (lines 15-16), are left out: they are I/O.
- Python integers are unbounded, as Dafny's are. Identifiers wider than their padding width grow longer, which Ids.FormatIdLength excludes by requiring the number to fit.
