# Money, time and agreement in the ERP

A Dafny model of the parts of the platform where money, time and agreement are computed, with proofs of what the
code's comments promise, or of the exact condition under which the promise holds. `dafny verify dfyconfig.toml`
checks the whole project (Dafny 4.11).

Each table is a map, each conditional update one atomic step. Clock readings, fresh ids, and the outcomes of calls to
other services are parameters. Instants are integers in the finest unit stored; a month is counted from year zero.
Decimals are exact reals with the rounding mode named, invoices are whole cents.

## Modules

- `Intervals`, `Movements`, `Reserve`, `Release`, `Service`: the capacity meter. Interval sets as sorted, disjoint,
  coalesced lists, proved against pointwise membership; the movement log and its folds; the booking guard; the release
  of a source; interleaved runs of the lambda.
- `Agreements`, `Purchase`: the two-stamp agreement, and the capital entry that two firms each book for it.
- `Rounding`, `Rules`, `Brackets`, `Payroll`, `Treasury`: rounded arithmetic, capped charges, bracket schedules,
  withholding, and payouts under a lifetime cap folded from the ledger.
- `Lines`, `Rollup`, `Transitions`, `Postings`, `Histories`: the invoice: range-keyed lines and totals, the modifier
  roll-up, the fold of item states, what an item's walk of states posts, and the history all items share.
- `Tasks`, `Bundler`, `ProfileIndex`: the acyclic task structure, the import closure, the inverted index.
- `MetricKey`, `AwsConfig`, `Reviews`: a key printer and its parser, a config file merge, a one-shot ticket.
- `Common`, `Strings`: shared types and facts about sequences and text.

## Where the code and its comments differ

The model follows the code. In each case the condition under which the comment holds is proved.

- `consumed` is an unordered fold: a cancelled instant that is booked again stays free in its eyes
  (`Reserve.GuardIff`, `Reserve.BookCancelBookBook`, `Service.SafeIff`).
- `to_row` keeps whole seconds of a rule's duration (`Movements.RowRoundTrip`).
- `parse_public_key` accepts keys that `public_key` never prints (`MetricKey.PrintParsed`).
- A fingerprint hashes the JSON text of the total, so 100 and 100.0 are two agreements (`Agreements.NotationSplits`).
- `note` creates a missing row, where its comment says it returns nothing (`Agreements.NoteCreates`).
- `pay` takes a fresh timestamp at each call and accounting dedups on id and timestamp, so a stale image books again
  (`Purchase.BookedPerReading`, `Purchase.StaleImageBooksTwice`).
- Four of the shipped tax tables have a bracket whose base lies below what the bracket before it reached, where a cent
  more of pay can withhold less: federal for two jobs and a single filer, and California's three
  (`Payroll.FourDoNotClimb`, `Payroll.TwoJobsDips`, `Payroll.SingleCaDips`, `Payroll.FederalIff`, `Payroll.CaIff`).
- A lifetime cap is only safe for periods closed in order, and for one instance an instrument (`Treasury.OrderIff`,
  `Treasury.CapIff`, `Treasury.OutOfOrder`, `Treasury.StackIff`).
- A quantity that `int()` takes to zero is stored as zero and later read as one (`Lines.TotalIff`).
- A modifier of a modifier, and every plain line beside a line without an id, is missing from the roll-up
  (`Rollup.ConservesIff`, `Rollup.UnnamedLineHides`).
- A refund leaves revenue standing when another state came between `earned` and `refunded`
  (`Postings.RefundedOnce`).
- The copy of an approved script reads the staged object again (`Reviews.ApprovedIff`, `Reviews.StagedInBetween`), and
  one that fails after it wrote gives its ticket back (`Reviews.CleanIff`, `Reviews.WroteThenFailed`).
- `reserve` and the parent check decide on one reading and write later; two that cross double book an instant or close a
  cycle (`Service.RaceIff`, `Service.CrossedBookings`, `Tasks.StillClearIff`, `Tasks.CrossedUpdates`).
- The bundler keeps one file for each name, whoever imports it (`Bundler.ServedIff`).

## Model

| member | source | states |
|---|---|---|
| `Intervals.UnionCovers` | modules/inventory/availability.py:56-61 | Union keeps an interval sorted, disjoint and coalesced, and covers exactly the instants either side covers |
| `Intervals.DifferenceCovers` | modules/inventory/availability.py:108-114 | `default - scheduled` keeps the form and covers exactly the instants of the first outside the second |
| `Intervals.IntersectionCovers` | modules/inventory/availability.py:95-105 | Clipping to a window keeps the form and covers exactly the instants of both |
| `Intervals.CanonicalUnique` | modules/inventory/availability.py:108-126 | Two intervals with the same instants are the same list, so `empty` and equality decide sets of instants |
| `Intervals.EmptyCoversNothing` | modules/inventory/availability.py:117-126 | An interval is empty exactly when it covers no instant |
| `Intervals.PairsIntervalCovers` | modules/inventory/availability.py:56-61 | `intervals` covers exactly the union of its pairs, for pairs in any order, overlapping, adjacent or empty |
| `Intervals.FoldPairs` | modules/inventory/availability.py:56-61 | The loop of `intervals`, tied to that function and to the pointwise union |
| `Intervals.OccurrencesInterval` | modules/inventory/availability.py:64-105 | The slots of a recurrence cover t exactly when an occurrence starts at most its duration before t and t is in the window |
| `Intervals.FromOccurrences` | modules/inventory/availability.py:93-105 | The clipping loop of `from_rrule`, for occurrences in any order |
| `Intervals.IsFree` | modules/inventory/availability.py:117-121 | Free if and only if every instant of [start, end) is offered and none is scheduled |
| `Intervals.DoubleBook` | modules/inventory/availability.py:124-126 | A double booking if and only if some instant of [start, end) is scheduled |
| `Intervals.FreeExcludesDoubleBook` | modules/inventory/availability.py:117-126 | A non-empty request is never both; one offered in full is exactly one of the two |
| `Movements.RowRoundTrip` | modules/inventory/movements.py:150-196 | `from_row(to_row(mv))` gives the movement back if and only if its rule lasts whole seconds (the row truncates the duration) |
| `Movements.OnHand` | modules/inventory/movements.py:201-212 | The loop of `on_hand`: point movements up to the instant asked for |
| `Movements.StockOrderFree` | modules/inventory/movements.py:201-212 | On-hand depends on which movements are in the log, with repetition, and not on their order |
| `Movements.FoldConsumed` | modules/inventory/movements.py:234-250 | The loop of `consumed`, accumulating booked and cancelled |
| `Movements.ConsumedCovers` | modules/inventory/movements.py:234-250 | `consumed` is exactly the instants some negative span covers and no positive span covers |
| `Movements.ConsumedOrderFree` | modules/inventory/movements.py:234-250 | Logs holding the same movements, in any order and number, are consumed over the same list of spans |
| `Movements.MovementTable.Append` | modules/inventory/movements.py:277-288 | A replay of the same item, instant and id changes nothing; anything else adds exactly its row, in key order |
| `Movements.MovementTable.Read` | modules/inventory/movements.py:291-301 | Paging returns every row once, in key order, whatever the page size |
| `Movements.StoredIsAccepted` | modules/inventory/movements.py:277-301 | After any run of appends the table holds the first arrival of each key, each once, in key order |
| `Movements.ReadIsAccepted` | modules/inventory/movements.py:234-301 | On every log a run of appends can reach, `consumed` over the read rows equals `consumed` over the accepted arrivals |
| `Reserve.StandingCovers` | modules/inventory/movements.py:234-250 | The reference: bookings added and cancels taken out in order of arrival, as an interval |
| `Reserve.StandingIff` | modules/inventory/movements.py:234-250 | An instant stands if and only if some booking of it has no later cancel |
| `Reserve.NoRebookSound` | modules/inventory/movements.py:234-250 | On a log that never rebooks a cancelled instant, `consumed` is what stands, and a request found free collides with nothing |
| `Reserve.GuardIff` | modules/inventory/movements.py:234-263 | The guard can be trusted at every point of a log if and only if the log never rebooks a cancelled instant |
| `Reserve.NeverDoubleBooked` | modules/inventory/availability.py:117-126 | A log whose bookings were each free of `consumed` when they arrived and that never rebooks leaves no instant booked twice |
| `Reserve.RebookCheck` | modules/inventory/movements.py:234-250 | A booking keeps the log free of rebooking if and only if its spans do not overlap what the log has cancelled |
| `Reserve.RebookCollides` | modules/inventory/movements.py:234-250 | Wherever a guarded log rebooks a cancelled instant, one more booking of it passes the guard and is a double booking |
| `Reserve.BookCancelBookBook` | modules/inventory/movements.py:234-250 | The concrete run: book, cancel, book, book of one hour passes every guard and ends double booked |
| `Reserve.CheckOccurrences` | modules/inventory/lambdas/reserve/main.py:163-270 | The per-occurrence guard refuses if and only if some instant wanted is taken or not offered, and names such an occurrence |
| `Reserve.Decide` | modules/inventory/lambdas/reserve/main.py:163-270 | No refusal if and only if the id is new, an occurrence opens, and a booking is free or a cancel touches something booked |
| `Reserve.HandleReserve` | modules/inventory/lambdas/reserve/main.py:163-270 | The handler records the one movement exactly for an admissible request, any other reply leaves the partition unchanged, and no other item is touched |
| `Release.ReleaseClears` | modules/inventory/lambdas/reserve/main.py:41-97 | Cancelling by source gives back exactly the instants consumed under the source, whole bookings and remainders alike, and leaves nothing consumed under it |
| `Release.ReleaseTakes` | modules/inventory/lambdas/reserve/main.py:41-97 | Of what the item has consumed, a release gives back exactly what its source had consumed |
| `Release.OthersKeepIff` | modules/inventory/lambdas/reserve/main.py:41-97 | Another source keeps all it held if and only if it held no instant that the released one had consumed too |
| `Release.CancelBySource` | modules/inventory/lambdas/reserve/main.py:41-97 | The fold under the source, the loop over its bookings and the rows it records, each under a fresh id; nothing at all when nothing is consumed |
| `Release.UndoneClears` | modules/inventory/lambdas/reserve/main.py:41-97 | After it, what is read back from the table holds nothing consumed under the source, so a second call has nothing to cancel |
| `Service.SeesArrivals` | modules/inventory/lambdas/reserve/main.py:163-270 | Whatever order the table keeps its rows in, the guard sees what the arrivals of a run consumed |
| `Service.HandledHappens` | modules/inventory/lambdas/reserve/main.py:163-270 | A call of the handler that reads and appends at once is an event of a run, and leaves the partition the run leaves |
| `Service.RunGuarded` | modules/inventory/lambdas/reserve/main.py:163-270 | Over any run of requests and releases, each reading at one moment and appending at a later one: while no booking arrives in between over the same instants, every booking on record was free of what was consumed when it arrived |
| `Service.NeverReturnsIff` | modules/inventory/lambdas/reserve/main.py:163-270 | The arrivals rebook if and only if some recorded booking overlapped what the table showed cancelled: a test a caller can make first |
| `Service.RaceIff` | modules/inventory/lambdas/reserve/main.py:163-270 | Among runs that never book over a cancelled instant, those without a double booking are exactly those in which no booking was appended over an instant that another had booked since it read |
| `Service.CrossedBookings` | modules/inventory/lambdas/reserve/main.py:163-270 | The concrete race: two requests for one offered window that both read before either appends are both recorded and double booked |
| `Service.SafeIff` | modules/inventory/lambdas/reserve/main.py:163-270 | Whatever the item offers, over a run in whole seconds without such a race: at every point nothing the lambda may be asked next double books, if and only if the run never booked over a cancelled instant |
| `Tasks.CheckParentCycle` | modules/tasks/lambdas/_helpers.py:248-267 | "cycle" if and only if a path of stored parent edges shorter than the bound leads from the parents to the task; no answer means none of any length does; "too deep" that none so short does but some chain is as long as the bound |
| `Tasks.UpdateStaysAcyclic` | modules/tasks/lambdas/_helpers.py:248-267 | An update whose parents do not lead back keeps an acyclic store acyclic |
| `Tasks.UpdateIff` | modules/tasks/lambdas/_helpers.py:248-267 | It keeps it acyclic if and only if its parents do not lead back: the check asks no more than is needed |
| `Tasks.TaskTable.Put` | modules/tasks/lambdas/manage_tasks/main.py:56-107 | A put is written only when checked, and the store stays acyclic over every sequence of them |
| `Tasks.TaskTable.UpdateParents` | modules/tasks/lambdas/manage_tasks/main.py:110-192 | A parent update changes that header alone, or nothing; the store stays acyclic |
| `Tasks.TaskTable.Deliver` | modules/tasks/lambdas/_helpers.py:125-138 | The first delivery wins and drops the open flag; a later one, or one without a header, changes nothing |
| `Tasks.StillClearIff` | modules/tasks/lambdas/manage_tasks/main.py:56-192 | Of interleaved writes, each decided on an earlier reading: the store is acyclic all along if and only if each write's parents did not lead back to its task when it was written |
| `Tasks.UndisturbedStaysAcyclic` | modules/tasks/lambdas/manage_tasks/main.py:110-192 | It stays acyclic while no write in between moves a task above the parents checked, also where an update writes its parents back unchecked as it read them |
| `Tasks.CrossedUpdates` | modules/tasks/lambdas/manage_tasks/main.py:110-192 | The concrete race: two updates that both check before either writes close a cycle |
| `Bundler.Walk.LocalImports` | scripts/deploy.py:132-174 | The depth-first walk over the shared `seen`: the file and every file it adds have all their imports carried, through cycles too; it ends because each file entered takes one unseen name |
| `Bundler.Walk.Import` | scripts/deploy.py:142-174 | One name: already seen, vendored, a local file to enter, or a refusal that the repository justifies |
| `Bundler.BuildPy` | scripts/deploy.py:229-250 | When it does not raise, every import of every bundled file is an entry or in the vendor tree that rides along; every entry is reached from the lambda's own files by resolved imports, the vendor tree is there only if a reached file needs it, and a refusal is real |
| `Bundler.ServedIff` | scripts/deploy.py:142-174 | Every import of every entry is served by the file it resolves to if and only if no two files the lambda's own reach share a name, none has the name of what the vendor tree serves, and each finds all it imports |
| `MetricKey.DecEnc` | modules/metrics/metric_key.py:26-32 | The three replace passes of `_dec` undo `_enc` for every value string |
| `MetricKey.EncDec` | modules/metrics/metric_key.py:26-32 | Encoding a decoded text gives it back if and only if `_enc` could have printed it |
| `MetricKey.ParsePrinted` | modules/metrics/metric_key.py:35-75 | `parse_public_key(public_key(d, p))` is d and p for every definition and period accepted |
| `MetricKey.PrintParsed` | modules/metrics/metric_key.py:35-75 | The other direction, against the docstring's "exact inverse": a parsed key prints as itself if and only if its period and property are not empty and its value is canonically escaped |
| `MetricKey.UnprintableKey` | modules/metrics/metric_key.py:58-75 | A family of keys the parser accepts and no definition prints: a raw `=` in the value |
| `MetricKey.PrefixIff` | modules/metrics/metric_key.py:78-81 | A key begins with `public_prefix(d)` if and only if it is a point of d, so a prefix query mixes no two metrics |
| `AwsConfig.SplitSectionsSpec` | scripts/awsacct.py:46-56 | The sections concatenate back to the text |
| `AwsConfig.Resplit` | scripts/awsacct.py:46-56 | Splitting the text of well-split sections finds the same sections |
| `AwsConfig.SplitSectionsLoop` | scripts/awsacct.py:46-56 | The loop of `split_sections` |
| `AwsConfig.MergedSections` | scripts/awsacct.py:72-93 | Re-splitting the output of `merge` finds the sections it wrote |
| `AwsConfig.MergeIdempotent` | scripts/awsacct.py:72-93 | A second merge changes nothing, to the last character |
| `AwsConfig.MergeKeepsForeign` | scripts/awsacct.py:72-93 | Every section neither written nor pruned stays in its order with its text; at most two line feeds are added after the last |
| `AwsConfig.MergeWritesBlocks` | scripts/awsacct.py:72-93 | Every block is there, each section of its profile is exactly the block, and pruning leaves no other owned profile but the two kept by name |
| `AwsConfig.MergeLoop` | scripts/awsacct.py:72-93 | The loops of `merge` |
| `AwsConfig.ConfigFile.Write` | scripts/awsacct.py:96-106 | The answer says whether the content changed; an unchanged file is not written, and a second write changes nothing |
| `Agreements.FingerprintIff` | modules/agreements/agreements.py:60-67 | Two terms share a fingerprint normal form if and only if they have the same items, in any order, and the same total in the same JSON text |
| `Agreements.NotationSplits` | modules/agreements/agreements.py:60-67 | Against "must produce the same hash for the same terms": one amount written 100 by one side and 100.0 by the other lands on two rows |
| `Agreements.AgreementsTable.Stamp` | modules/agreements/agreements.py:75-99 | One atomic update, every field through if_not_exists; the side's stamp is there afterwards and an earlier one stands |
| `Agreements.AgreementsTable.Request` | modules/agreements/agreements.py:102-109 | Terms land on their own fingerprint unless a hash is named |
| `Agreements.AgreementsTable.Accept` | modules/agreements/agreements.py:112-115 | An accept without terms offers the empty terms |
| `Agreements.AgreementsTable.Annotate` | modules/agreements/agreements.py:137-157 | A note adds only the fields the row lacks |
| `Agreements.AgreementsTable.Refuse` | modules/agreements/agreements.py:118-124 | A decline without a row changes nothing and returns nothing; with one, it is stamped for good |
| `Agreements.AgreementsTable.MarkAgreementSettled` | modules/agreements/agreements.py:127-134 | The settled stamp lands once |
| `Agreements.NeverReverts` | modules/agreements/agreements.py:75-157 | Over any run of operations no field once written is lost or changed: agreed, declined and settled are for good |
| `Agreements.RepeatIff` | modules/agreements/agreements.py:75-99 | An operation is a no-op if and only if the row already has every field it offers |
| `Agreements.FirstWriteWins` | modules/agreements/agreements.py:75-157 | A row holds v for a field if and only if the earliest event that offers the field offers v |
| `Agreements.MirroredTables` | modules/agreements/agreements.py:75-99 | Two tables that were offered the same values, in any order and repetition, hold the same row but for clock readings |
| `Agreements.DealSpec` | modules/agreements/agreements.py:75-115 | However often and in whatever order the sides touch one deal, its row holds its parties, its terms and the stamps of exactly the sides that touched |
| `Agreements.PinnedIff` | modules/agreements/agreements.py:75-115 | A row's terms are t if and only if the touch that landed first carried t; an accept without terms that lands first pins the empty terms |
| `Agreements.PinnedFingerprint` | modules/agreements/agreements.py:60-115 | While touches land on the fingerprint of their terms, so do the pinned terms |
| `Agreements.NoteCreates` | modules/agreements/agreements.py:137-157 | Against the docstring, a note before any touch creates the row, and the row can then be declined |
| `Purchase.LegsSpec` | modules/treasury/purchase.py:28-38 | Each side's legs balance, and the cash legs of the two sides are opposite |
| `Purchase.EntryIdIff` | modules/treasury/purchase.py:24-42 | Entry ids coincide only for one side of one thread, or a buyer's thread t and a seller's thread "out-t" |
| `Purchase.Firm.Pay` | modules/treasury/purchase.py:45-88 | The guards, the posting, and the receipt; a run that dies in between has posted and not stamped |
| `Purchase.Firm.Settle` | modules/agreements/lambdas/settle/main.py:49-94 | The gates, the money step, the per-side effects, then the settled stamp only when all of them went through |
| `Purchase.BookedPerReading` | modules/accounting/lambdas/post_journal_entry/main.py:365-431 | As accounting dedups, the entries under an id are exactly the distinct clock readings of the deliveries that paid under it |
| `Purchase.BookedOnceById` | modules/treasury/purchase.py:24-88 | Were the entry id alone the key, any deliveries, stale or cut short, would book one entry if one of them pays and none otherwise |
| `Purchase.StaleImageBooksTwice` | modules/treasury/purchase.py:45-88 | Against "neither double-books": a paying image delivered again at another time is booked twice |
| `Purchase.PaidAtMostOnce` | modules/treasury/purchase.py:45-88 | While deliveries carry the row as it stands and the receipt lands, one entry of the row's own total is booked if and only if its receipt is there, whichever way accounting dedups |
| `Purchase.EntriesAreBacked` | modules/treasury/purchase.py:45-88 | Whatever rows share the thread, while deliveries are current and receipts land, the entries booked under an id are no more than the rows whose receipt names it, and none if and only if no row's does |
| `Purchase.AgreedIsPaid` | modules/agreements/lambdas/settle/main.py:49-94 | One current delivery of an agreed and priced deal suffices |
| `Purchase.CashConserved` | modules/treasury/purchase.py:28-88 | Two firms running one deal, each in its own table and in any interleaving: one entry each at most, of the deal's total, and what leaves the buyer's cash comes into the seller's |
| `Rounding.HalfEvenIff` | modules/rules/rules.py:296-299 | The default quantize gives the nearest cent, the even one of two |
| `Rounding.HalfUpIff` | modules/invoicing/lambdas/_helpers.py:317-325 | `money` gives the nearest cent, the one away from zero of two |
| `Rules.ChargedFillsCap` | modules/rules/general_rules.py:91-101 | With true year-to-date totals the bases charged over any sequence of periods sum to min(cap, sum of the bases): nothing of the cap is charged twice or skipped |
| `Rules.PostingSpec` | modules/rules/general_rules.py:91-101 | A posting is nothing, or two equal positive legs within half a cent of factor x the slice charged |
| `Rules.PostedNearCharged` | modules/rules/general_rules.py:91-101 | The amounts posted over n periods stay within n half cents of factor x what was charged |
| `Rules.MultiplySpec` | modules/rules/general_rules.py:28-61 | An item is added if and only if the pattern matches and the product exceeds half a cent, and it is within half a cent of it |
| `Rules.RunsCompose` | modules/rules/rules.py:189-234 | Two lists run one after the other return what each returns alone, when the rules of the second look at no execution id but their own |
| `Rules.RunInstances` | modules/rules/rules.py:189-234 | The loop: rows in instance order, stamped with key and execution id, each rule called with the ids appended so far |
| `Brackets.BracketTaxLoop` | modules/rules/rules.py:314-324 | The loop of `_bracket_tax` |
| `Brackets.SlicesIff` | modules/rules/rules.py:314-324 | The tax is the sum of the marginal slices at every amount if and only if each base is the tax accumulated below its floor |
| `Brackets.NeverFallsIff` | modules/rules/rules.py:314-324 | The tax never falls if and only if no rate is negative and no bracket begins below what the one before reached |
| `Brackets.AccumulatedClimbs` | modules/rules/rules.py:314-324 | A schedule with accumulated bases and nonnegative rates is such a schedule |
| `Payroll.WageAccrualSpec` | modules/labor/payroll_rules.py:54-67 | A shift's accrual balances and is within half a cent of hours x rate |
| `Payroll.FederalNeverFalls` | modules/labor/payroll_rules.py:71-134 | On a climbing schedule the federal withholding never falls as gross rises, through the division, the credits and the rounding |
| `Payroll.FederalIff` | modules/labor/payroll_rules.py:71-134 | For every W-4 figured on a schedule, withholding never falls if and only if that schedule climbs |
| `Payroll.FederalYear` | modules/labor/payroll_rules.py:106-134 | A year of equal periods withholds, within half a cent a period, the tax on the adjusted annual wage less the dependents' credit (not below nothing) plus the extra of each period |
| `Payroll.TwoJobsDips` | modules/schemas/data/rule_params.json:134-230 | The single, two-jobs table as shipped does not climb: a cent more of gross withholds a cent less |
| `Payroll.CaNeverFalls` | modules/labor/payroll_rules.py:138-201 | On a climbing rate table Method B never withholds less for more gross, through exemption, deductions, credit and rounding, and its result is balanced |
| `Payroll.CaIff` | modules/labor/payroll_rules.py:138-201 | For every DE-4 of a filing status, withholding never falls if and only if the status's rate table climbs, for tables in whole cents |
| `Payroll.CaYear` | modules/labor/payroll_rules.py:169-201 | A year of equal periods withholds nothing up to the exemption or the deductions, and above them, within half a cent a period, the tax on the taxable wage less the exemption credit |
| `Payroll.SingleCaDips` | modules/schemas/data/rule_params.json:264-320 | On any rate table that begins as the single one shipped does, a cent more of gross withholds a cent less |
| `Payroll.FourDoNotClimb` | modules/schemas/data/rule_params.json:134-430 | The four shipped schedules whose neighbouring brackets these are do not climb |
| `Treasury.Months` | modules/treasury/ledger.py:33-41 | Every month from start to end once, in order; none when start is after end; it terminates |
| `Treasury.Fold` | modules/treasury/ledger.py:56-106 | The nested loops of `fold_credits` and `fold_debits`: the matching rows of each partition, strictly before the period when one is given |
| `Treasury.ShareSpec` | modules/treasury/treasury_rules.py:56-65 | A payout balances, never takes the paid total past the cap, is the whole remainder when the share would pass it, and is nothing on a loss or at the cap |
| `Treasury.RunPays` | modules/treasury/lambdas/distribution/main.py:181-228 | Over any in-order run of closes of an instrument with one rule instance the credits total min(cap, opening + shares): never past the cap, on it exactly once the shares reach it, and nothing after |
| `Treasury.RefireChangesNothing` | modules/treasury/lambdas/distribution/main.py:136-228 | Firing a closed period again, after any later closes, folds the same total and leaves the ledger unchanged |
| `Treasury.CapIff` | modules/treasury/lambdas/distribution/main.py:136-228 | A close of a period keeps the lifetime total within the cap whatever the period earned, if and only if its fold reads everything paid so far |
| `Treasury.OrderIff` | modules/treasury/lambdas/distribution/main.py:136-228 | A run of closes keeps the cap for all incomes if and only if the periods are closed in ascending order |
| `Treasury.EffectsSpec` | modules/treasury/lambdas/distribution/main.py:181-208 | The entry of any number of matched instances balances, credits what they pay together, and is missing if and only if that is nothing |
| `Treasury.StackIff` | modules/treasury/lambdas/distribution/main.py:181-208 | Instances that share a cap, each reading the same total, keep it for every income if and only if there is at most one |
| `Treasury.OutOfOrder` | modules/treasury/lambdas/distribution/main.py:136-228 | Two periods closed in the wrong order pay against the same total; when both shares reach the remainder, it is paid twice |
| `Lines.Slug` | modules/invoicing/lambdas/_helpers.py:288-292 | A slug is never empty and has only slug characters, so no separator |
| `Lines.RangeSkParses` | modules/invoicing/lambdas/_helpers.py:285-296 | A range key splits back into its slug and start |
| `Lines.RangeSkIff` | modules/invoicing/lambdas/_helpers.py:285-296 | Two range keys are equal if and only if slug and start are |
| `Lines.LineRanges` | modules/invoicing/lambdas/_helpers.py:299-311 | In place: each line gets the units of its key after those of the lines before, and its key |
| `Lines.RangesTile` | modules/invoicing/lambdas/_helpers.py:299-311 | With quantities of at least one, the ranges of a key tile 1..Q: every unit in exactly one line, none outside |
| `Lines.StoredRangesTile` | modules/invoicing/lambdas/_helpers.py:299-311 | The same of the start and end that `line_ranges` stores on the lines |
| `Lines.DistinctIff` | modules/invoicing/lambdas/_helpers.py:299-311 | Keys collide if and only if the quantities of one item over some stretch sum to nothing; never with quantities of at least one |
| `Lines.BuildInvoice` | modules/invoicing/lambdas/_helpers.py:398-485 | The checks in order, ids and costs written in place, the totals; a refused list is left as it was unless the duplicate check refused it |
| `Lines.BuiltIff` | modules/invoicing/lambdas/_helpers.py:419-465 | An invoice is built if and only if it has a customer, lines, no line refused on its own, and no two lines on one range |
| `Lines.NeverDuplicate` | modules/invoicing/lambdas/_helpers.py:463-465 | With quantities of at least one the duplicate-id refusal cannot fire |
| `Lines.IdsDistinct` | modules/invoicing/lambdas/_helpers.py:443-465 | Every stored line has an id of its own |
| `Lines.PartsAddUp` | modules/invoicing/lambdas/_helpers.py:425-494 | subtotal + tax = total = the sum of the line totals as they were checked |
| `Lines.TotalIff` | modules/invoicing/lambdas/_helpers.py:328-494 | The stored lines charge the invoice's total if and only if the priced lines whose quantity truncates to zero would charge nothing for one unit each |
| `Lines.TotalsAddUp` | modules/invoicing/lambdas/_helpers.py:328-494 | With no such line: total, tax and subtotal are the sums over the stored lines, the ones a rule added, and the rest, to the cent |
| `Lines.HalfUnitDrifts` | modules/invoicing/lambdas/_helpers.py:299-340 | The concrete line: half a unit at ten dollars totals nothing and, stored, charges ten |
| `Lines.MoneyOfCents` | modules/invoicing/lambdas/_helpers.py:317-325 | `money` leaves whole cents as they are |
| `Rollup.Rollup` | modules/invoicing/lambdas/_helpers.py:130-172 | The index of ids, the modifiers of each, and the report |
| `Rollup.ReportCarries` | modules/invoicing/lambdas/_helpers.py:130-172 | On all inputs, the report carries each line as often as it has shares: once of its own, once for each reported line it is folded into |
| `Rollup.ReportLoses` | modules/invoicing/lambdas/_helpers.py:130-172 | With unique ids the report and the lines it loses add up to everything |
| `Rollup.RollupConserves` | modules/invoicing/lambdas/_helpers.py:130-172 | With unique ids and modifiers one deep, rolled revenues sum to the line totals and rolled costs to the known costs |
| `Rollup.ConservesIff` | modules/invoicing/lambdas/_helpers.py:130-172 | Where no line charges a negative amount, revenue is conserved if and only if every line the report loses charges nothing |
| `Rollup.UnnamedLineHides` | modules/invoicing/lambdas/_helpers.py:144-158 | One line without an id hides every line that modifies nothing |
| `Transitions.FoldItems` | modules/invoicing/lambdas/_helpers.py:546-558 | An item's state is its last row; invoice-level rows are no item |
| `Transitions.FoldedPerItem` | modules/invoicing/lambdas/_helpers.py:523-558 | The fold depends on the order within each item alone, so the sort key's item-major order does not matter |
| `Histories.History.TransitionItem` | modules/invoicing/lambdas/manage_invoice/transition_item.py:36-170 | One call on an invoice's history: refused, taken for a retry, or its row appended with the legs it posts |
| `Histories.ItemWalks` | modules/invoicing/lambdas/manage_invoice/transition_item.py:36-170 | However calls on an invoice's items and on itself interleave and repeat, each item walks through the states asked of it as if it were alone, so what is proved of a walk holds of it |
| `Histories.RetryChangesNothing` | modules/invoicing/lambdas/manage_invoice/transition_item.py:65-75 | A call under an id of its own, repeated after any later calls, is a duplicate and changes nothing |
| `Histories.InvoiceLevelPostsNothing` | modules/invoicing/lambdas/manage_invoice/transition_item.py:46-54 | An entry about the invoice itself posts nothing, moves no item, and is recorded unless it names the invoice's own status |
| `Histories.ReadOrderFree` | modules/invoicing/lambdas/_helpers.py:499-543 | Reading the rows item by item, as the sort key orders them, gives the same answer as reading them as they arrived |
| `Postings.WalkBalances` | modules/invoicing/transition_rules.py:101-141 | Every entry of every walk balances, whatever rules a firm wrote, and each row leaves the state the one before entered |
| `Postings.LiabilityNets` | modules/invoicing/transition_rules.py:160-176 | A liability item leaves cash and its own account with what was paid and not refunded, and every other account at zero |
| `Postings.LiabilityZeroIff` | modules/invoicing/transition_rules.py:160-176 | All accounts are zero if and only if it was refunded as often as paid, through any annotation states |
| `Postings.LiabilityNeverUnearned` | modules/invoicing/transition_rules.py:160-176 | No leg of a liability item names UNEARNED_REVENUE |
| `Postings.RevenueNets` | modules/invoicing/transition_rules.py:101-176 | What a revenue item leaves on each account, by how often it was paid, earned, refunded, and refunded out of earned |
| `Postings.RevenueZeroIff` | modules/invoicing/transition_rules.py:101-176 | All accounts are zero if and only if it was refunded as often as paid and refunded out of earned as often as earned |
| `Postings.RefundedOnce` | modules/invoicing/transition_rules.py:120-141 | Paid once, refunded once, earned at most once: zero if and only if never earned or refunded straight out of earned |
| `ProfileIndex.IndexKeys` | prod/optimizer/lambdas/_helpers.py:70-85 | The loops of `index_keys` |
| `ProfileIndex.IndexTable.Reindex` | prod/optimizer/lambdas/_helpers.py:107-116 | Deleting the stale and putting the missing leaves exactly the wanted rows of the profile, and every other profile's rows |
| `ProfileIndex.IndexTable.Deindex` | prod/optimizer/lambdas/_helpers.py:119-122 | No row of the profile is left, and every other row is |
| `ProfileIndex.IndexIff` | prod/optimizer/lambdas/_helpers.py:107-122 | After any run of publishes and retires the rows are exactly the keys of the live profiles |
| `ProfileIndex.QueryIff` | prod/optimizer/lambdas/_helpers.py:70-134 | A query returns a profile if and only if it is live and the query, stripped and lowered, is one of its keys |
| `ProfileIndex.QueryExact` | prod/optimizer/lambdas/_helpers.py:70-134 | For plain field names a query for any key returns exactly the live profiles that have it |
| `ProfileIndex.StepKeepsOthers` | prod/optimizer/lambdas/_helpers.py:107-122 | A step leaves other profiles' rows as they are, and redelivering it changes nothing |
| `ProfileIndex.AskedIff` | prod/optimizer/lambdas/_helpers.py:70-134 | The key of a text can be asked for if and only if its field name has no upper-case letter and begins with no space: any other is stored and never found |
| `Reviews.ReviewTable.Record` | modules/automation/lambdas/_reviews.py:51-71 | Every review is kept; only a pass is a ticket |
| `Reviews.ReviewTable.Spend` | modules/automation/lambdas/_reviews.py:74-106 | One conditional update: it succeeds exactly on an unspent, unexpired pass of this script, kind and version, and then cannot again |
| `Reviews.ReviewTable.Release` | modules/automation/lambdas/_reviews.py:109-128 | The ticket is unspent again with its binding unchanged |
| `Reviews.OneApprovalPerTicket` | modules/automation/lambdas/approve_automation/main.py:48-101 | Under any interleaving of reviews, staged writes and approvers, a ticket is behind at most one completed approval, and that one matches a passing review of its kind and of the version seen, spent in its window |
| `Reviews.CleanIff` | modules/automation/lambdas/approve_automation/main.py:79-94 | Every approval there is answers to a review spent for it if and only if no copy of the run failed after it wrote; then no ticket is behind two |
| `Reviews.ReviewsStand` | modules/automation/lambdas/_reviews.py:51-128 | A recorded review keeps its verdict, kind, version and window |
| `Reviews.WroteThenFailed` | modules/automation/lambdas/approve_automation/main.py:79-94 | The concrete run: a copy fails after it wrote, the ticket is given back, and a second approval completes on it |
| `Reviews.ApprovedIff` | modules/automation/lambdas/approve_automation/main.py:67-94 | Against "bytes that changed after the review was read cannot be approved": over any run the bytes approved are all of the versions reviewed if and only if every copy found staged the version its approver had seen |
| `Reviews.StagedInBetween` | modules/automation/lambdas/approve_automation/main.py:79-94 | The concrete run: another version staged after the ticket is spent is the one approved |

## Left out

- RRULE expansion and time zones: a recurrence is the list of occurrences its rule opens.
- The 28-digit precision of Decimal and binary floating point: arithmetic is exact up to the named rounding. The
  costs that `rollup` rounds as floats are rounded half to even on exact values.
- SHA-256 and JSON encodings: a fingerprint is its normal form, an item of the terms its canonical text, a total its
  text beside its value.
- Unicode: case folding, digits and white space beyond ASCII and Latin-1; `lower()` changes ASCII letters only.
- Carriage returns in the config text, which reading in text mode has already turned into line feeds.
- DynamoDB paging limits, eventual consistency of indexes, and the loss of a multi-row write half way (`reindex` and
  `deindex` are seen when complete).
- Races between a handler's read and its later write in `transition_item` and in the fold of a close: such a pair is one
  step here. In `reserve` and the parent check the two are apart, and each reading is one moment, though it comes page
  by page and header by header. A delivery to `settle` is one step: it books, stamps the receipt, runs the effects and
  settles; as it may carry any earlier image of its row, `Purchase.BookedPerReading` covers what overlapping deliveries
  book.
- Symbolic links and `realpath` in the bundler, and the `extra` files a caller adds.
- Two entries of one `lines` list that are the same object: lines are values in an array.
- `invoice_id` composition, authorship fields, due dates and the stored invoice rows (`put_invoice`, `get_invoice`).
- `rolled_margin`, a quotient of two fields the report states.
- Stamped provenance beyond `run_instances`: execution ids are fresh by counting.
- A `transition_item` that dies between its posting and its row.
- Unit location, SKU and job dimensions of a posting, and `_snapshot` and `settled` of its answer.
- `op: availability` of `reserve`, which prints `default - consumed` and its seconds.
- The effect lambdas behind `settle`: only whether each succeeds.
- `fold_debits` as a method of its own: it is `Treasury.Fold` on the debit side without a bound.
- Service.SafeIff: of bookings that do not fill whole seconds it says nothing; whether an instant inside a second can be
  asked for again depends on what the item offers over a window that short. `Service.RaceIff` has no such condition.
- Purchase.PaidAtMostOnce: assumes the deliveries that pay under the entry id are those of one row. Two rows of one
  thread that are both agreed share the id; `EntriesAreBacked` and `BookedPerReading` say what is then booked.
- HTTP routing, permissions, tags, the tax tables other than those named, and the lookup of rule instances.
