# Economist Bot, modelled in Dafny

Economist Bot is a Discord bot that keeps a ledger of fictional national currencies. Each
currency has a unique code, a name, a nation or state, an owner, a circulation and a gold
reserve, and a derived value: reserves divided by circulation. Users run `/currency ...` slash
commands to do the following:
- create and delete currencies;
- rename a currency's code, state or name;
- list the currencies;
- view one currency;
- read its end-of-day records;
- move its circulation or reserves.

The moves (and deletions) are two-step: the command shows a private review with Confirm and
Cancel buttons, and the button press applies it. A background worker takes a snapshot of every
currency after 06:00 and another after 18:00, then stores one valuation record per currency
(opening value, closing value, delta, growth).

The project is a model of that core, one module per source file:

| module | file | what it holds |
|---|---|---|
| `Wrappers`, `Types` | — | `Option`/`Result` and the row types (`CurrencyData`, `RecordData`, …), the option tree and users |
| `Schema` | `src/main.rs` | the generated columns `value`, `delta_value` and `growth` |
| `Ledger` | `src/main.rs`, `src/commands/manage.rs`, `src/commands/query.rs` | the three tables as maps, in class `Ledger`, with the writes the handlers make |
| `Responses` | `src/main.rs` | `CommandResponseObject`, its constructors and getters |
| `Options` | `src/utils/mod.rs` | `get_options`, and the "last option wins" readings all parse loops share |
| `Query` | `src/commands/query.rs` | `list_currencies` |
| `Worker`, `WorkerFacts` | `src/workers/records.rs` | the valuation worker (class `RecordWorker`) and its properties |
| `Transactions` | — | what the circulation and reserve handlers share |
| `Circulation` | `src/handlers/circulation.rs` | the circulation handler class |
| `Reserve` | `src/handlers/reserve.rs` | the reserve handler class |
| `Delete` | `src/handlers/delete.rs` | the delete handler class |
| `List` | `src/handlers/list.rs` | the list handler |
| `Create` | `src/handlers/create.rs` | the create handler |
| `Records` | `src/handlers/records.rs` | the records handler |
| `View` | `src/handlers/view.rs` | the view handler |
| `Modify` | `src/handlers/modify.rs` | the modify handler |
| `Routing` | `src/main.rs` | the dispatch of commands and buttons to handlers |
| `Legacy` | `src/commands/currency.rs` | the older all-in-one currency handler |
| `Decimal` | — | Rust's `{}` and `{:05}` integer formatting and `parse::<i64>` |
| `Debug` | — | Rust's `{:?}` rendering of a string, and its reading back |

Code that works by updating state is modelled as imperative Dafny:
- the worker's loop, the parse loops and the listing loop are methods with loop invariants;
- the handlers that keep a pending transaction or delete target are classes whose methods
  update fields;
- the database is a `Ledger` object whose methods update its maps.

Each method is proved equal to a specification function, or states its new state outright, and
the lemmas next to those functions state what the source promises.

Inputs the bot gets from outside are passed in as parameters. These include:
- the time of day;
- the pending halt message;
- the rows a query streams and the error it may end with;
- which record inserts fail;
- the records `get_reports` returns;
- the order a hash map yields its keys in.

Time of day is in nanoseconds since midnight. Values are exact reals.

Some behaviour of the code is captured as written and proved:
- A confirm does not clear the pending transaction, so confirming twice applies it twice.
- The circulation handler has no owner check.
- Deleting an unknown code succeeds and changes nothing.
- The worker's snapshot maps are never cleared, so a currency missing from today's closing fetch
  is matched with a closing snapshot from an earlier day.
- A failed opening fetch is not retried that day.

## Model

| member | source | states |
|---|---|---|
| Schema.CurrencyValue | src/main.rs:560-567 | value is 0 when reserves or circulation is not positive, otherwise the positive v with v × circulation = reserves |
| Schema.DeltaValue | src/main.rs:586 | opening + delta = closing |
| Schema.Growth | src/main.rs:587-592 | growth is 0, 1 or -1 exactly when closing equals, exceeds or falls below opening |
| Schema.NewRecord | src/main.rs:580-596 | an inserted record keeps its ids, date and both values, and obeys the delta and growth rules |
| Schema.GrowthIsSignOfDelta | src/main.rs:586-592 | in every stored record growth is the sign of delta_value, so it lies in {-1, 0, 1} |
| Schema.TwoCurrencyDay | src/main.rs:560-592 | a worked day: 100/50 → value 2, 150/50 → 3, 0/10 → 0; the records' delta and growth follow |
| Ledger.Ledger.constructor | src/main.rs:552-596 | a fresh database has three empty tables and satisfies every schema constraint |
| Ledger.Ledger.Read | src/main.rs:552-569 | a row read back carries its id, code and the generated value |
| Ledger.Ledger.GetCurrencyData | src/commands/query.rs:29-37 | Ok exactly when some row has the code, and then it is that row as read; otherwise RowNotFound |
| Ledger.Ledger.AddCurrency | src/commands/manage.rs:17-38 | stores a new row under a fresh id with the given owner; an out-of-range balance or a code in use is refused and nothing changes (unique code, src/main.rs:554) |
| Ledger.Ledger.RemoveCurrency | src/commands/manage.rs:40-48 | removes the row with the code together with its transactions and records (cascade, src/main.rs:578, 594); an unknown code changes nothing and still succeeds |
| Ledger.Ledger.ReserveModify | src/handlers/reserve.rs:127-129 | logs a reserve-only transaction and moves reserves by the amount, nothing else; refused when the code is unknown or the new balance leaves BIGINT |
| Ledger.Ledger.CirculationModify | src/handlers/circulation.rs:125-127 | the same for circulation |
| Ledger.Ledger.ModifyCurrencyMeta | src/handlers/modify.rs:48-71 | rewrites exactly one metadata column of the row with the code and returns the row; unknown code → RowNotFound, a new code another row holds → unique violation |
| Ledger.Ledger.InsertRecord | src/workers/records.rs:87 | stores a record for an existing currency under a fresh id with generated delta and growth; a missing currency violates the foreign key |
| Ledger.Ledger.Recreate | src/commands/currency.rs:998-1006 | every table is emptied |
| Ledger.CascadeKeepsOthers | src/main.rs:578 | after a cascade no kept row refers to the deleted currency, and every row of another currency is kept unchanged |
| Debug.Quoted | src/main.rs:310 | the `{:?}` rendering of a string starts and ends with a quote; what lies between reads back to the string (quote, backslash and ASCII control characters escaped), and a string with nothing to escape appears unchanged |
| Debug.EscapeRoundTrip | src/main.rs:310 | reading back the escaped text of every suffix gives that suffix |
| Debug.UnescapeChar | src/main.rs:310 | each character's escape reads back to that character, whatever follows it |
| Responses.Interactive | src/main.rs:150-160 | interactive, carries its components and prompt, never modal or an embed |
| Responses.InteractiveOnly | src/main.rs:162-172 | interactive with components and no text |
| Responses.Modal | src/main.rs:174-184 | always interactive, modal and ephemeral; its text is the custom id |
| Responses.InteractiveWithFeedback | src/main.rs:186-196 | carries the feedback and the display text separately |
| Responses.TextResponse | src/main.rs:198-208 | public and not interactive |
| Responses.EmbedResponse | src/main.rs:210-220 | public, not interactive, the embed and no text |
| Responses.ErrorResponse | src/main.rs:222-232 | private error report |
| Responses.GetText | src/main.rs:246-252 | the stored text, or the empty text when none was set |
| Responses.GetFeedback | src/main.rs:258-264 | the stored feedback, or the empty text |
| Responses.GetInteractiveData | src/main.rs:254-256 | the stored components (the source unwraps them) |
| Options.GetOptions | src/utils/mod.rs:4-22 | Err exactly when there is no sub-command; a sub-command whose first child has options (a sub-command group) yields exactly that child's options, and otherwise the sub-command's own options; nothing deeper is ever read |
| Options.LastStringSpec | src/handlers/delete.rs:140-155 | the string reading is None exactly when no option carries a string under the name, else the value of such an option with none after it |
| Options.LastIntegerSpec | src/handlers/records.rs:109-130 | the same for integer options |
| Options.LastIntegerAtLeastSpec | src/handlers/create.rs:103-136 | the same for integers at or above a bound, whose reading is at least the bound |
| Options.LastIntegerWithoutSmaller | src/handlers/list.rs:140-146 | when no integer falls below the bound, the last integer is also the last one at or above it |
| Query.OrderColumnInjective | src/commands/query.rs:51-58 | every sort orders by its own column |
| Query.ListCurrencies | src/commands/query.rs:49-80 | the loop returns Listing: the first `number` rows once more arrive, else the stream's error or all rows, reversed for numeric sorts |
| Query.ListingBound | src/commands/query.rs:66-72 | a listing keeps min(number, rows) rows; a negative number keeps every row |
| Query.ListingIsPermutedPrefix | src/commands/query.rs:66-79 | a listing is a permutation of the fetched rows up to the cutoff |
| Query.ListingOrder | src/commands/query.rs:73-76 | numeric sorts return the kept rows last-fetched first, the others in fetch order |
| Query.NumericListingDescends | src/commands/query.rs:74 | given the ascending order the query asks for, a numeric listing is descending |
| Query.StreamErrorAborts | src/commands/query.rs:69 | a stream error is returned exactly when the cutoff is not reached before it |
| Worker.Absorb | src/workers/records.rs:53-56 | storing rows keeps every snapshot keyed by its own id and loses no key |
| Worker.RecordsOverVisit | src/workers/records.rs:83-95 | visiting one opening snapshot adds its insert exactly when the closing map has the id and the insert succeeds |
| Worker.StoreSnapshot | src/workers/records.rs:53-56 | the store loop yields Absorb |
| Worker.Materialise | src/workers/records.rs:83-95 | attempts exactly the ids in both maps, inserts every one whose insert succeeds, from opening value to closing value, whatever the key order |
| Worker.RecordWorker.constructor | src/workers/records.rs:28-34 | market closed, both maps empty |
| Worker.RecordWorker.Tick | src/workers/records.rs:36-98 | one pass of the loop moves the state exactly as Step does |
| WorkerFacts.AbsorbKeys | src/workers/records.rs:53-56 | a map after storing holds the old ids and the ids of the rows, nothing else |
| WorkerFacts.AbsorbLastWins | src/workers/records.rs:53-56 | an id's entry is its last stored row, or the old entry when no row carries it |
| WorkerFacts.FetchBound | src/workers/records.rs:52 | a snapshot fetch yields at most 200 currencies, the first in code order |
| WorkerFacts.HaltComesFirst | src/workers/records.rs:40-47 | a pending halt ends the worker before the clock is read; nothing else changes |
| WorkerFacts.BoundaryTicksChangeNothing | src/workers/records.rs:50 | at exactly 06:00 or 18:00 a pass changes nothing |
| WorkerFacts.OpensOnlyDuringTheDay | src/workers/records.rs:50-51 | the market opens exactly when it was closed and 06:00 < now < 18:00 |
| WorkerFacts.ClosesOnlyInTheEvening | src/workers/records.rs:67-68 | the market closes exactly when it was open and now > 18:00 |
| WorkerFacts.FailedOpeningNotRetried | src/workers/records.rs:51-63 | after a failed opening fetch the market is open with no snapshots, and later passes that day change nothing |
| WorkerFacts.SnapshotsPersist | src/workers/records.rs:28-34 | no pass removes a snapshot id |
| WorkerFacts.CloseInsertsMatchedIds | src/workers/records.rs:67-95 | a successful close attempts the ids in both maps and inserts all but the failing ones, opening value to closing value |
| WorkerFacts.StaleClosingSnapshotIsUsed | src/workers/records.rs:69-87 | a currency missing from today's closing fetch is recorded with an earlier day's closing snapshot |
| WorkerFacts.TwoCurrencyDay | src/workers/records.rs:50-95 | a worked day: open at 07:00, close at 19:00, records 2→3 and 0→0 |
| Transactions.IsAdd | src/handlers/circulation.rs:38-42 | only "add" adds; every other action removes |
| Transactions.ParseTransactionOptions | src/handlers/circulation.rs:160-193 | the parse loop returns TransactionOptions: refused at any negative amount, else the last amount signed by the action and the last code |
| Transactions.AmountSignMatchesAction | src/handlers/reserve.rs:176-187 | a parsed amount is never negative for add and never positive for remove; a refusal names the action |
| Transactions.MissingOptionsDefault | src/handlers/circulation.rs:161-162 | without amount and code the transaction is 0 on "" |
| Transactions.ParseCommand | src/handlers/circulation.rs:26-59 | the sub-command checks and parse, with the handler's messages, return CommandRequest |
| Transactions.RequestReadsFirstAction | src/handlers/circulation.rs:33-47 | a parsed request's action is the first option of the first sub-command, and its amount and code come from the parse |
| Transactions.ReviewButtons | src/handlers/circulation.rs:195-229 | Confirm and Cancel with the handler's own ids; Danger exactly for a circulation removal |
| Transactions.Review | src/handlers/reserve.rs:197-222 | a private interactive review whose preview balance is the current balance plus the amount |
| Transactions.ReviewButtonsArePattern | src/handlers/reserve.rs:149-151 | the review's buttons are exactly the handler's pattern |
| Transactions.Cancelled | src/handlers/reserve.rs:142-144 | the cancel reply says nothing was updated |
| Circulation.CommandStoresItsTransaction | src/handlers/circulation.rs:61-69 | a parsed command leaves its own transaction pending whatever the lookup says, and its review previews circulation + amount |
| Circulation.CirculationHandler.constructor | src/handlers/circulation.rs:152-158 | nothing pending |
| Circulation.CirculationHandler.HandleCommand | src/handlers/circulation.rs:26-70 | result and pending transaction are CommandEffect of the old one and the lookup |
| Circulation.CirculationHandler.HandleInteraction | src/handlers/circulation.rs:121-148 | confirm applies the pending amount to circulation and logs it; cancel and unknown ids leave the ledger alone |
| Circulation.CirculationHandler.Confirm | src/handlers/circulation.rs:123-138 | Ok exactly when the code exists and the balance stays in range; then circulation moves by the amount and the broadcast shows the new balance and transaction id |
| Reserve.OnlyOwnerIsReviewed | src/handlers/reserve.rs:64-71 | only the owner gets a review, which previews reserves + amount; others get the not-owner error |
| Reserve.RejectedCommandReplacesPending | src/handlers/reserve.rs:60-69 | as written, a non-owner's rejected command still replaces the owner's pending transaction |
| Reserve.OwnerCheckedKeepsPending | src/handlers/reserve.rs:60-69 | with the owner check first, refusals keep the pending transaction and only an owner's transaction gets stored |
| Reserve.ReserveHandler.constructor | src/handlers/reserve.rs:155-161 | nothing pending |
| Reserve.ReserveHandler.HandleCommand | src/handlers/reserve.rs:26-72 | result and pending transaction are CommandEffect of the old one and the lookup |
| Reserve.ReserveHandler.HandleInteraction | src/handlers/reserve.rs:123-151 | confirm applies the pending amount to reserves; cancel replies "no records updated" and unknown ids reply empty, both leaving the ledger alone |
| Reserve.ReserveHandler.Confirm | src/handlers/reserve.rs:126-141 | Ok exactly when the code exists and the balance stays in range; then reserves move by the amount, circulation is unchanged and the transaction row names the initiator |
| List.SortNamedChoices | src/handlers/list.rs:128-136 | every registered sort string selects its own sort; any other string sorts by code |
| List.ParseListOptions | src/handlers/list.rs:119-153 | the parse loop returns ListOptions: refused at any number ≤ 0, else the last sort string and the last number |
| List.ListOptionsDefaults | src/handlers/list.rs:120-146 | defaults Name and 10; a parsed number is positive and is the last one given |
| List.ExactlyOneHighlighted | src/handlers/list.rs:40-54 | exactly one header column is highlighted, the active sort's, and captions never change |
| List.HandleCommand | src/handlers/list.rs:20-84 | the handler returns ListEffect |
| List.ListEffectShowsListing | src/handlers/list.rs:69-83 | the private table shows the listing, at most `number` rows, a permutation of the stream's prefix, under the sort's header |
| Create.ParseCreateOptions | src/handlers/create.rs:103-136 | the parse loop returns CreateOptions |
| Create.CreateOptionsChecks | src/handlers/create.rs:125-127 | missing code, then name, then state are reported in that order; balances are non-negative and 0 when not given |
| Create.NegativeInitialIgnored | src/handlers/create.rs:115-120 | a negative initial value leaves the earlier one in place |
| Create.Announcement | src/handlers/create.rs:46-56 | a public text announcing the stored row |
| Create.HandleCommand | src/handlers/create.rs:18-57 | stores the currency with the invoking user as owner and circulation and reserves in their own columns; a code in use is refused with nothing stored |
| Records.ParseRecordsOptions | src/handlers/records.rs:109-130 | the parse loop returns RecordsOptions |
| Records.RecordsOptionsDefaults | src/handlers/records.rs:110-120 | defaults 10 and ""; refused exactly when some number ≤ 0 |
| Records.ColourMatchesPerformance | src/handlers/records.rs:47-60 | description and colour split growth the same three ways |
| Records.TableLines | src/handlers/records.rs:46-70 | one line per record, in order |
| Records.HandleCommand | src/handlers/records.rs:19-80 | the handler returns RecordsEffect |
| Records.OneLinePerRecord | src/handlers/records.rs:46-70 | the table has one line per fetched record carrying its date, delta and growth's description |
| Delete.DeleteOptions | src/handlers/delete.rs:140-155 | Err exactly when no code string is given |
| Delete.ParseDeleteOptions | src/handlers/delete.rs:140-155 | the parse loop returns DeleteOptions |
| Delete.LastCodeWins | src/handlers/delete.rs:143-147 | a later code replaces an earlier one; a code without a string changes nothing |
| Delete.OnlyOwnerReplacesTarget | src/handlers/delete.rs:34-70 | only the owner gets the prompt, and only then is the held target replaced, by the looked-up row |
| Delete.ButtonsArePattern | src/handlers/delete.rs:46-61 | the prompt's buttons are exactly the handler's pattern |
| Delete.DeleteHandler.constructor | src/handlers/delete.rs:133-138 | nothing held |
| Delete.DeleteHandler.HandleCommand | src/handlers/delete.rs:22-72 | result and held target are CommandEffect of the old target and the lookup |
| Delete.DeleteHandler.HandleInteraction | src/handlers/delete.rs:93-125 | only "delete-confirm" removes the held currency with its transactions and records; any other id declines and changes nothing |
| View.ViewOptions | src/handlers/view.rs:98-116 | Err exactly when no code string is given |
| View.ParseViewOptions | src/handlers/view.rs:98-116 | the parse loop returns ViewOptions |
| View.ImagePathInjective | src/handlers/view.rs:59 | distinct (currency id, record id) pairs get distinct image paths |
| View.HandleCommand | src/handlers/view.rs:18-76 | the handler returns ViewEffect |
| View.ViewIsEmbed | src/handlers/view.rs:53-75 | a view is a public embed of the currency, with an image naming the first record exactly when one exists, and the warning exactly when none does |
| Modify.ParseModifyOptions | src/handlers/modify.rs:179-211 | parsing never fails; each option is its last string or None |
| Modify.MetaCall | src/handlers/modify.rs:48-71 | a call is made exactly when the action's two options are present |
| Modify.Announcement | src/handlers/modify.rs:90-100 | private feedback naming the currency and a public broadcast |
| Modify.HandleCommand | src/handlers/modify.rs:24-102 | changes exactly the field of the currency the action names; unknown actions and missing options end in the arguments error with nothing changed |
| Modify.BroadcastShowsChange | src/handlers/modify.rs:48-100 | after a successful change, the row holds the command's value in the action's column and its old values elsewhere; the broadcast, built from the row read after the update, shows that value and names the currency by its unchanged name (code, state) or code (name) |
| Routing.RouteCommand | src/main.rs:294-315 | the handler loop returns CommandRoute |
| Routing.CommandRouteIsLastMatch | src/main.rs:294-315 | a command reaches handler i exactly when its sub-command has i's name and no later handler has it; "economist" goes to the meta command |
| Routing.RegistryRoutesByName | src/main.rs:108-123 | in the bot's registry every sub-command reaches its own handler |
| Routing.CommandReply | src/main.rs:294-315 | unrouted → "no response handler"; a handler's error → private error report |
| Routing.RouteComponent | src/main.rs:384-397 | the button loop returns ComponentRoute |
| Routing.ComponentRouteIsLastMatch | src/main.rs:384-397 | an id reaches handler i exactly when i's pattern holds it and no later one does |
| Routing.RegistryRoutesButtons | src/main.rs:108-123 | in the bot's registry every button reaches the handler that issued it; other ids reach none |
| Routing.ComponentReply | src/main.rs:384-397 | no handler → error report; a handler's error → private error report |
| Decimal.FormatParseRoundTrip | src/commands/currency.rs:914-915 | an i64 printed with `{}` parses back to itself |
| Decimal.Pad5RoundTrip | src/handlers/view.rs:59 | an i64 printed with `{:05}` parses back to itself, and is five characters when below 100000 |
| Legacy.FoldFields | src/commands/currency.rs:320-343 | the first fold returns the last string or integer of each option, "" or 0 when none |
| Legacy.CreateDefaultsToZero | src/commands/currency.rs:322-323 | omitted initial values are 0; a given one is taken as it is |
| Legacy.AmountFoldStaysRefused | src/commands/currency.rs:456-485 | once the guard refuses, the whole fold is refused |
| Legacy.GuardIgnoresIncomingValue | src/commands/currency.rs:462 | whether one more amount is refused depends only on the held amount, not on the incoming value |
| Legacy.NegativeAmountPasses | src/commands/currency.rs:456-468 | a single -5 under "add" passes the guard, while the handlers' parse refuses it |
| Legacy.TwoRemovalsRefused | src/commands/currency.rs:473-485 | two positive amounts under "remove" are refused |
| Legacy.FoldTransaction | src/commands/currency.rs:456-485 | the action loop returns TransactionFold |
| Legacy.FoldViewCode | src/commands/currency.rs:833-841 | the view loop returns ViewCode |
| Legacy.ViewCodeResets | src/commands/currency.rs:833-841 | a trailing code without a string erases an earlier code |
| Legacy.PlanValidates | src/commands/currency.rs:312-866 | no sub-command → debug dump, unknown → "Couldn't respond to subcommand", a list asks for a positive number |
| Legacy.SingleAmountReviewed | src/commands/currency.rs:445-529 | a single amount goes to review as given, negated for remove |
| Legacy.RunTransaction | src/commands/currency.rs:445-640 | the reserve and circulation branches return TransactionPlan |
| Legacy.RunModify | src/commands/currency.rs:642-722 | the modify branch returns ModifyPlan |
| Legacy.RunList | src/commands/currency.rs:745-829 | the list branch returns ListPlan |
| Legacy.RunView | src/commands/currency.rs:831-863 | the view branch returns ViewPlan |
| Legacy.RunSubcommand | src/commands/currency.rs:320-866 | the sub-command dispatch returns SubcommandPlan |
| Legacy.StoredTransactionReadsBack | src/commands/currency.rs:899-997 | a confirm reads back the stored code, 64-bit amount and initiator |
| Legacy.DeleteConfirmNeedsName | src/commands/currency.rs:871-895 | a delete confirm needs the name the lookup stores as well as the code |
| Legacy.ReviewMatchesHandlers | src/commands/currency.rs:501-519 | the legacy review shows the handlers' review text and button styles |
| Legacy.CurrencyHandler.constructor | src/commands/currency.rs:312-318 | the shared map starts empty |
| Legacy.CurrencyHandler.Run | src/commands/currency.rs:312-866 | returns Plan and leaves exactly the keys Stores names |
| Legacy.CurrencyHandler.StoreKeys | src/commands/currency.rs:492-497 | a review stores code, amount and initiator; a delete stores the code; nothing else is written |
| Legacy.CurrencyHandler.StoreDeleteName | src/commands/currency.rs:364 | the found name joins the map |
| Legacy.CurrencyHandler.StoreCreated | src/commands/currency.rs:401-402 | the created code and name join the map |

## Left out

- Discord plumbing is not modelled: command registration (`register` bodies), `ready`, message
  sending and deleting, embeds and buttons beyond their content, and modal routing.
- Message text is modelled by its content (the `Text` datatype), not by its characters. This
  covers the ANSI and box-drawing table layout and the `{:?}` rendering of database errors
  (`Ledger.Describe`), except the message of a `Protocol` error, which is escaped by `Debug.Quoted`.
- Debug.Quoted: escapes quote, backslash and the ASCII control characters as Rust does. The
  `\u{…}` escapes Rust also writes for non-ASCII characters that are not printable or that
  extend a grapheme depend on the Unicode tables and are not modelled; such characters are
  written as they are.
- Transactions.Review: the preview balance is the exact sum of the balance and the amount. The
  source computes it in i64 (`data.circulation + amount` at src/handlers/circulation.rs:196,
  `data.reserves + amount` at src/handlers/reserve.rs:198), which panics in a debug build and
  wraps in a release build when the sum leaves the i64 range. Legacy.ReviewReply has the same
  exact sum where src/commands/currency.rs:501 and 587 add in i64. The ledger itself refuses
  balances outside BIGINT, so only the preview is affected.
- Legacy.AmountFold: the negation for "remove" is exact. The source negates in i64
  (`-transaction_amount` at src/commands/currency.rs:482 and 568), which overflows for
  i64::MIN, a value the guard at line 462 lets through.
- The SQL bodies are not modelled. The database is the `Ledger` class, whose contracts follow
  the schema's constraints. `src/commands/manage.rs` as shown differs from the calls the handlers
  make: `add_currency` there takes no owner and its `reserve_add` does not move reserves. The
  model follows the calls the handlers make.
- `reserve_modify`, `circulation_modify`, `modify_currency_meta`, `insert_record` and
  `get_reports` are not part of this model's source. The first four are `Ledger` methods whose
  contracts follow the schema. The records `get_reports` returns are a parameter, so their
  order and count are not modelled.
- Concurrency is not modelled: the tokio task, the mpsc channel, the handler mutexes and the
  shared `custom_data` mutex. Halt is a boolean input and the shared map is a plain field.
- The clock (`Utc::now`) and the 10-second sleep are not modelled; the time of day is a
  parameter.
- Floating point is not modelled: `value`, delta and growth are exact reals.
- Option values are unbounded integers; the i64 range of slash-command integers is not enforced
  when parsing.
- A query's stream is given as the rows it yields and an optional final error.
- `src/commands/meta.rs`, `version.rs`, `ping.rs`, `src/handlers/boilerplate.rs` and
  `src/handlers/database.rs` are not part of this model. They hold version strings, stubs and a
  confirm wrapper around a database wipe.
- Legacy.CurrencyHandler.Run: models `run` up to its single database call. The call and the
  reply built from its answer are described by `Outcome`, not performed.
- Chart rendering and publishing are not part of the code shown and are not modelled.
- Worker.RecordWorker.Tick: the halt branch sets a `halted` flag instead of ending the loop.

## Findings

| source | as written | input that shows it | evidently intended | confidence | as-written member | corrected member |
|---|---|---|---|---|---|---|
| src/commands/currency.rs:462 | the negative-value guard tests the amount held so far (`amount < 0`, starting at 0), not the value being read; the same holds at lines 479, 548 and 565 | a single `amount` of -5 under "add" passes and is reviewed as -5; two positive amounts under "remove" are refused | refuse a negative incoming value, as the newer handlers' parse does | not executed | Legacy.NegativeAmountPasses | Transactions.AmountSignMatchesAction |
| src/handlers/reserve.rs:60-69 | the pending transaction is stored before the owner check, so a non-owner's command the check rejects still replaces it | the owner of AAA asks to add 10; another user asks to add 1000000 and is refused; the owner's Confirm applies 1000000 | store the pending transaction only after the owner check passes | not executed | Reserve.RejectedCommandReplacesPending | Reserve.OwnerCheckedKeepsPending |
