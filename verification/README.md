# Verified models of the Qintopia agent system

This project models the parts of the system where state, crashes and arithmetic meet, and proves
what they keep. `dafny verify dfyconfig.toml` checks all of it.

**The CSV workspace** (`Text`, `Decimals`, `DecimalSums`, `CsvFields`, `CsvMeaning`, `CsvStore`,
`CsvAppend`, `CsvLedger`, `CsvBalance`, `CsvInvariant`, `CsvPreserve`, `CsvSteps`, `CsvReplay`,
`CsvEffects`, `CsvQuery`, `CsvReading`, `CsvFiltering`, `CsvReversal`, `CsvStored`, `CsvCreated`,
`CsvAccepted`, `CsvReachable`, `CsvIdentity`, `CsvTrace`, `CsvRuns`, `CsvInterrupted`,
`CsvWorkspace`).
A group is a set of files: a catalog log, and per dataset version a schema and a row log. A call is
one `create` or `append` of any group, with its clock readings and the point at which the process
may die. `CsvStore` and `CsvAppend` say what each operation does to the files, branch by branch;
the class `CsvWorkspace` does it in place, statement by statement, and is proved to do the same;
`CsvInvariant` says when a group is in order, and `CsvPreserve` and `CsvSteps` show that every call
keeps it so. `CsvEffects` says what one call does, all or nothing. `CsvMeaning` says what values mean,
in terms of the values themselves: what a field accepts, stores and shows; `CsvStored`, `CsvCreated`
and `CsvFiltering` say in those terms what an append stores, what a create stores, and what a query
answers, and `CsvAccepted` which appends are accepted. The rest is about every reachable
workspace: history, quotas, ledger and balances, repeated requests, reversals, and what a reader sees
of an append after any later calls (`CsvTrace`). `CsvRuns` and `CsvInterrupted` hold short runs from
an empty workspace for the inputs on which the workspace surprises.
Decimals are modelled down to digits, with Python's 28-digit context and half-even rounding.

**Effect-once protocols.** `PmsOps` is a step machine of broker, host threads, wire and property
management system, `PmsHost` the host operations as methods that take those steps in program order
while everything else moves in between, `PmsCancel` what cancelling is worth, and `PmsPreview` what a
preview is worth. `Reminders` has both for the reminder host. `Welcome` is the presentation host with its in-memory transport.

**Deployment.** `Dashboard` (activation and rollback chain), `ProfileTx` (backup, activation and
restore of two files), `Drain` (polling loop and marker clean-up). Each step may fail, or be the
last before the process dies, before or after it took effect.

**Algorithms.** `JsonTree` and `JsonLimits` (two JSON validators), `Sanitizer` and
`SanitizerPasses` (callback sanitizer), `Crawl` (bounded breadth-first crawl and its encoder),
`EnvQuoting` (quoting of environment values).

## Environment

Digests are functions without collisions (`CsvStore.CollisionFree`, `ProfileTx.CollisionFree`); ids
are hexadecimal texts of at least 32 digits, where the program cuts digests to exactly 32. Encoded
sizes, canonical dates, equality of filter values, `int()` and the normalisation of addresses are
parameters. The group lock is the order of the calls. The broker follows the sidecar sources
(`runtime/sidecar/src/person_collaboration/store/business.rs`, `business_reminders.rs`,
`welcome_host.rs`): stable keys per action, one-shot claims, and a phase that turns unknown in the
same call that permits a send. The property management system keeps one outcome per idempotency
key, and a resolve request closes a key that has none.

## What the code does not do

Some expected properties fail; each has a witness and the exact condition in the table.

- A reversal of a row with a blank account or currency lands in the default one, `cash` or `CNY`
  (`ReversalKeepsAccount`, `BlankAccountRun`).
- A reversal of an amount with more than 28 significant digits may not cancel it exactly
  (`ReversalCancels`, `LongAmountRounds`).
- An append to a ledger is stored and then refused when the rounded balance of its account needs
  more than 1024 digits, and so is every repetition of it (`BalanceRefused`, `TwoBigIncomesRun`,
  `AppendIsIdempotent`). A query whose sum needs more digits is refused with its rows and its count
  (`QueryNeedsSum`, `SumIsRefused`).
- An income whose amount leaves no room for a sign can be booked and never taken back
  (`ReversalAccepted`, `ShortAmountFits`, `TinyIncomeRun`).
- The canonical text of an accepted decimal can be too long to be accepted (`CanonFixedPoint`,
  `CanonTooLongForItself`).
- A reversal keeps four keys of its request and drops every other one, even one that a later version
  of the ledger declares (`AcceptedIsRead`, `ReversalIgnoresRest`, `ProjectIsLost`).
- A create that dies after it wrote its schema and before its event cannot be repeated, except at the
  very same clock reading: the file stays and holds the time of that attempt (`InterruptedIsBlocked`,
  `InterruptedRun`).
- A repeated create is refused once the group has twenty datasets (`CreateIsIdempotent`), and a
  repeated append counts as new after a new version (`RetryNeedsLatestVersion`, `OlderRowsNeverCount`).
- A credential with a line separator other than line feed and carriage return is written, but the
  next run refuses the file (`PreparingTwice`, `BrokenIsWritten`).
- `activate` starts without looking for the copies that its undo needs (`UndoNeedsCopies`), and a
  backup that raises after its metadata was written leaves metadata without copies
  (`AbandonedBackupMisleads`). A backup directory whose creation raises after it took effect stays,
  and every later backup is refused (`BackupIsIntact`, `LeftoverBlocks`).
- A dashboard drop-in is read as text and written back as such, so carriage returns are lost by a
  restored activation and by a rollback that report success (`FailedApplyRestores`,
  `OriginalComesBack`, `ReturnsAreLost`).
- A cancelled action can be paused and then resumed in the broker, so cancelling is not final: it
  holds exactly until somebody pauses the action (`CancelHoldsUntilPause`, `CancelledIsCommitted`).

## Model

| member | source | states |
|---|---|---|
| `CsvWorkspaceModel.CsvWorkspace.Serve` | skills/erhua-csv/__init__.py:539-605 | One `create` or `append` call under the group lock, step by step on the object. Whatever failed or wherever the process died, every group is in order afterwards and no other group changed; a create announced exactly one event or none, and what it announced is stored field by field as it was asked for; an append stored exactly one row or none; and the answer says which. |
| `CsvEffects.AppendCallEffect` | skills/erhua-csv/__init__.py:571-605 | An append repeats the answer for a row already stored, or refuses and changes nothing, or adds exactly one row at the end of the latest version and no other change. It can refuse after storing only if the process died or the balance of the account cannot be written; reading the row back never fails. |
| `CsvStored.DurableRowMeans` | skills/erhua-csv/__init__.py:1121-1157 | A row is made durable if and only if every field takes the value given for it and every other key and value is legal; it then holds the event id, the time, the actor and the message, the text of every field, and every other value as it was given. |
| `CsvAccepted.AppendIsStored` | skills/erhua-csv/__init__.py:586-605 | A request to a dataset of one's own that was not stored before is stored if and only if all its values are acceptable and the row fits 16 KiB, the group 100 MiB and the file 10 MiB. |
| `CsvAccepted.EntryAccepted` | skills/erhua-csv/__init__.py:1206-1221 | A ledger entry is accepted if and only if it brings no delta, its direction is income or expense, its amount is a positive number whose text (and, for an expense, that of its rounded negation) can be written, every field takes the value the entry stands for, and its other keys are legal. |
| `CsvAccepted.TargetIs` | skills/erhua-csv/__init__.py:1182-1195 | A reversal finds its original if and only if the id names a stored row that is no reversal and is not reversed yet, and the request overrides nothing. |
| `CsvEffects.CreateEffect` | skills/erhua-csv/__init__.py:539-569 | A create or version request leaves the catalog as it was, and then refuses or repeats an earlier answer; or it announces exactly one event in the name of the caller, and unless the process dies it answers with the dataset as the catalog now has it. Every answer lists the fields of each version as stored and counts all rows. |
| `CsvCreated.CreateStores` | skills/erhua-csv/__init__.py:539-569 | What a create announced is stored as it was asked for: for a new dataset the name, description, preset, caller and times, the ledger fields or one field per description in order, and no rows; for a new version the previous fields followed by those, the hash of the previous schema, and a dataset that is otherwise unchanged. |
| `CsvCreated.CreatedFields` | skills/erhua-csv/__init__.py:386-432 | Over every call in every workspace in order: each description of an announced create is found in its place behind the previous fields, with its stripped name, type, required flag, default, stripped description and stripped enum texts, and the answered versions end with that list. |
| `CsvCreated.StoredAsGiven` | skills/erhua-csv/__init__.py:386-432 | A list of descriptions is accepted if and only if there are at most 32, each acceptable on its own (name, optionality, description, enum, default), with different stripped names; then it is stored one for one. |
| `CsvCreated.DatasetIsAnnounced` | skills/erhua-csv/__init__.py:886-944 | A create of a dataset that the group does not have is announced if and only if its descriptions are acceptable, the group has fewer than 20 datasets, everything fits the quotas, and no file of an interrupted create with other content is in its place. |
| `CsvCreated.VersionIsAnnounced` | skills/erhua-csv/__init__.py:946-1028 | A version request that was not answered before is announced if and only if it fits name and preset, has acceptable optional fields under new names, stays within 5 versions and 32 fields, every extra value stored under a new name is acceptable, and there is room. |
| `CsvInterrupted.InterruptedIsBlocked` | skills/erhua-csv/__init__.py:1052-1067 | After a create died between writing its schema and announcing it, and any further calls, the same request at another clock reading is refused and announces nothing; if the dataset is there nevertheless, it was announced at that reading. |
| `CsvInterrupted.InterruptedRun` | skills/erhua-csv/__init__.py:1052-1067 | The run: the first create of a group dies after its schema file, and the same request at another time is refused. |
| `CsvReplay.PublishEffect` | skills/erhua-csv/__init__.py:920-944 | The event is in the catalog only after the files of its version were written and read back; otherwise the catalog is as before. |
| `CsvWorkspaceModel.LogicalCatalog` | skills/erhua-csv/__init__.py:815-848 | The replay loop computes the recursive replay of the log, with its first inconsistency as the error. |
| `CsvWorkspaceModel.AllRawRows` | skills/erhua-csv/__init__.py:1223-1228 | The loop over versions collects the rows of all versions in stored order, or the first read error. |
| `CsvWorkspaceModel.LedgerSum` | skills/erhua-csv/__init__.py:1251-1254 | The accumulation loop yields the context-rounded sum of the deltas of the matching account and currency. |
| `CsvWorkspaceModel.PublicFields` | skills/erhua-csv/__init__.py:1280-1305 | The loop that fills the visible fields: it succeeds if and only if the newer fields take the extra values they inherit; then each field the row was written under shows what its stored text stands for, each newer one what its extra value means or nothing, and the other extra values show as they are. |
| `CsvWorkspaceModel.ShowAllVersions` | skills/erhua-csv/__init__.py:1268-1273 | The loops over versions and rows collect the projections of all rows in stored order, or the first error. |
| `CsvWorkspaceModel.FilterRows` | skills/erhua-csv/__init__.py:628-629 | The filtering loop keeps every row as often as it occurs, or not at all: exactly those whose event id, or value under the name, is equal to what each filter expects. |
| `CsvWorkspaceModel.RowMatches` | skills/erhua-csv/__init__.py:1326-1332 | A row passes if and only if for every filter its event id, or its value under the name, is equal to what the filter expects. |
| `CsvWorkspaceModel.CsvWorkspace.QueryRows` | skills/erhua-csv/__init__.py:607-653 | A query is answered if and only if its context, dataset id, paging and number of filters are legal, the dataset exists, every filter is acceptable to its field or has a legal name, and the sum it asks for is of a decimal field and can be written. |
| `CsvSteps.StepKeeps` | skills/erhua-csv/__init__.py:539-605 | Every call keeps every group in order: catalog replays, schema hashes match, versions extend each other, rows fit and project, ids are fresh, ledgers are in order, quotas hold, unannounced files are empty. |
| `CsvSteps.RunKeeps` | skills/erhua-csv/__init__.py:505-605 | The same over every sequence of calls, with crashes anywhere. |
| `CsvSteps.StepFrame` | skills/erhua-csv/__init__.py:655-657 | A call changes no other group; in its own group earlier catalog and row contents stay a prefix. |
| `CsvSteps.RunFrame` | skills/erhua-csv/__init__.py:655-667 | The same over whole runs: files only grow, and a group nobody addresses keeps its files. |
| `CsvPreserve.CreateDatasetKeeps` | skills/erhua-csv/__init__.py:886-944 | Creating a dataset keeps a group in order for every input and crash point. |
| `CsvPreserve.CreateVersionKeeps` | skills/erhua-csv/__init__.py:946-1028 | Creating a version keeps a group in order; in particular every stored row still projects under the new schema. |
| `CsvPreserve.AppendRowKeeps` | skills/erhua-csv/__init__.py:571-605 | Appending keeps a group in order, ledgers included. |
| `CsvPreserve.AllProjectMore` | skills/erhua-csv/__init__.py:997-1004 | If the check of the stored extra values passes, every row of every version can be shown under the extended schema. |
| `CsvPreserve.FreshId` | skills/erhua-csv/__init__.py:1104-1119 | An event id not found in the latest version occurs in no version of the dataset. |
| `CsvInvariant.WriteKeeps` | skills/erhua-csv/__init__.py:1052-1067 | Files of a version that is not announced yet can be written, wholly or in part, without disturbing the group. |
| `CsvInvariant.PutSize` | skills/erhua-csv/__init__.py:1370-1379 | Writing one file changes the group total by exactly the growth of that file. |
| `CsvReachable.SchemaHistory` | skills/erhua-csv/__init__.py:815-884 | In every reachable group: as many schema events as the latest version, stored schemas have the announced hash, each version properly extends the previous one, names are distinct. |
| `CsvReachable.CatalogReplays` | skills/erhua-csv/__init__.py:815-848 | In every reachable group the catalog replays up to any event, and from there on a dataset keeps its id, name and preset and only gains versions. |
| `CsvReachable.QuotasHold` | skills/erhua-csv/__init__.py:1370-1379 | In every reachable group: at most 20 datasets, 5 versions, 32 fields, 10 MiB per appended file, 100 MiB in total. |
| `CsvReachable.LedgerInOrder` | skills/erhua-csv/__init__.py:1174-1221 | Every reachable ledger, across its versions, satisfies the ledger invariant. |
| `CsvReachable.ReachableReversal` | skills/erhua-csv/__init__.py:1183-1204 | In every reachable ledger each reversal names a stored row that is no reversal, with the opposite direction and the same amount, account and currency (defaulted). |
| `CsvReachable.ReachableReversals` | skills/erhua-csv/__init__.py:1194-1195 | In every reachable ledger no event is reversed twice. |
| `CsvReachable.RetryNeedsLatestVersion` | skills/erhua-csv/__init__.py:1107-1117 | An answered append counts as a repetition if and only if its row is among those of the latest version. |
| `CsvReachable.OlderRowsNeverCount` | skills/erhua-csv/__init__.py:1104-1119 | No row of an older version has the event id of a request against the latest one, so after a new version the same request is a new one. |
| `CsvReachable.SameEventSameRequest` | skills/erhua-csv/__init__.py:1104-1119 | Two appends, at any two moments, are answered with the same event if and only if they agree in chat, message, dataset, version and row; the actor and the clock do not matter. |
| `CsvReachable.EventIdsAreGlobal` | skills/erhua-csv/__init__.py:1104-1119 | In every reachable group an event id identifies one stored row, with its dataset and version, among all files of the group. |
| `CsvReachable.ReportedBalance` | skills/erhua-csv/__init__.py:1230-1260 | In every run, an answered append to a ledger reports the balance of the ledger it leaves behind; if the reversed rows of that ledger had an account, a currency and at most 28 significant digits, and running totals stay below 10^(28-F), it is exactly the sum of the unreversed originals of the account. |
| `CsvLedger.AppendedRowOk` | skills/erhua-csv/__init__.py:1174-1221 | A row stored for a ledger request has canonical amounts with the sign of its direction, and as a reversal it undoes an unreversed original. |
| `CsvReversal.ReversalAccepted` | skills/erhua-csv/__init__.py:1182-1221 | A request that names a stored, unreversed original and overrides nothing is accepted if and only if the negated amount of the original, rounded to 28 digits if it is an income, has a plain text of at most 1024 characters, and the other columns are acceptable. |
| `CsvReversal.ShortAmountFits` | skills/erhua-csv/__init__.py:1216-1220 | For an income of at most 28 digits that is so if and only if its amount text has fewer than 1024 characters. |
| `CsvRuns.TinyIncomeRun` | skills/erhua-csv/__init__.py:1182-1221 | The run: a ledger is created and an income of 1E-1022 is booked. It is stored, and every request to reverse it is refused and changes nothing. |
| `CsvLedger.ReversalTargetOf` | skills/erhua-csv/__init__.py:1186-1204 | A reversal names a stored row that is no reversal, with the opposite direction and the same amount, account and currency (defaulted). |
| `CsvLedger.ReversalsStand` | skills/erhua-csv/__init__.py:1192-1193 | No reversal is itself reversed. |
| `CsvLedger.ReversedOnce` | skills/erhua-csv/__init__.py:1194-1195 | Two reversals never name the same event. |
| `CsvLedger.ReversalKeepsAccount` | skills/erhua-csv/__init__.py:1196-1207 | A reversal has the account (currency) of its original if and only if that was not blank. |
| `CsvLedger.BlankAccountIsStored` | skills/erhua-csv/__init__.py:334-345 | The account text of two spaces is accepted as the empty text. |
| `CsvRuns.BlankAccountRun` | skills/erhua-csv/__init__.py:1196-1207 | The run: a ledger is created, an income of 1 is booked under two spaces, and the income is reversed. The income stands under the blank account and the reversal that undoes it under cash. |
| `CsvLedger.ReversalCancels` | skills/erhua-csv/__init__.py:1216-1220 | A reversal has exactly the negated delta if and only if the amount fits the 28-digit context. |
| `CsvBalance.LedgerConserves` | skills/erhua-csv/__init__.py:1174-1260 | In a ledger in order whose reversed rows (no others are constrained) had an account, a currency and at most 28 significant digits, the exact deltas of every account add up to those of its unreversed originals. |
| `CsvBalance.BalanceIsExact` | skills/erhua-csv/__init__.py:1243-1260 | The reported balance is that sum, exactly, while running totals stay below 10^(28-F). |
| `CsvBalance.BalanceRefused` | skills/erhua-csv/__init__.py:1230-1260 | A balance is refused if and only if the rounded total of its account does not fit in 1024 digits of fixed notation. |
| `CsvBalance.TwoBigIncomes` | skills/erhua-csv/__init__.py:1230-1260 | An income of 9E+1023 is accepted as an amount, and an account whose deltas are two of them has no balance that can be written. |
| `CsvRuns.TwoBigIncomesRun` | skills/erhua-csv/__init__.py:571-605 | The run: a ledger is created and two messages append an income of 9E+1023 each. Both rows are stored and the second append is refused for its balance. |
| `Decimals.CanonKeepsValue` | skills/erhua-csv/__init__.py:289-312 | The canonical text parses to the normal form of the number that was given. |
| `Decimals.CanonFixedPoint` | skills/erhua-csv/__init__.py:289-312 | Canonicalising a canonical text gives it back if and only if it has at most 1024 characters. |
| `Decimals.CanonTooLongForItself` | skills/erhua-csv/__init__.py:289-312 | The input -1E-1022 is accepted, and its canonical text is not. |
| `Decimals.CanonOneText` | skills/erhua-csv/__init__.py:289-312 | Two accepted texts of nonzero numbers have the same canonical text if and only if they denote the same number. |
| `Decimals.ParseSci` | skills/erhua-csv/__init__.py:1216-1220 | The scientific text that `str` gives for a Decimal parses back to the same Decimal, representation included. |
| `Decimals.RoundExact` | skills/erhua-csv/__init__.py:1220 | Rounding to the context keeps the value if and only if the number fits the context. |
| `Decimals.NegCtxExact` | skills/erhua-csv/__init__.py:1220 | Unary minus is exact if and only if the number fits the context. |
| `Decimals.LongAmountRounds` | skills/erhua-csv/__init__.py:1216-1220 | A 29-digit amount that loses its last digit when negated. |
| `Decimals.AddExactValue` | skills/erhua-csv/__init__.py:649-652 | Before rounding, the aligned sum has the value of the sum. |
| `Decimals.SumExact` | skills/erhua-csv/__init__.py:649-652 | A running sum whose partial totals stay below 10^(28-F) in units of 10^-F never rounds. |
| `DecimalSums.SumIsExact` | skills/erhua-csv/__init__.py:649-652 | Then the rounded running sum has the value of the exact sum. |
| `DecimalSums.TotalFits` | skills/erhua-csv/__init__.py:289-312 | A running sum in the 28-digit context has a canonical text if and only if it fits in fixed notation. |
| `CsvMeaning.FieldIsTaken` | skills/erhua-csv/__init__.py:325-383 | For each type, said with the values themselves: a field accepts a value if and only if it is of that type and within its limits, and what is stored for it shows what it means: a boolean itself, an integer its number, a text stripped, a decimal the same number, a date as the calendar gives it, a blank the default or nothing. |
| `CsvMeaning.FieldIsStored` | skills/erhua-csv/__init__.py:325-372 | The stored text of an accepted value: true or false, the digits, the stripped text, the canonical date, a text of the same number. |
| `CsvFields.NormalizedFields` | skills/erhua-csv/__init__.py:386-432 | Accepted field lists have distinct names, and fields added by a version are optional. |
| `CsvFields.KnownAt` | skills/erhua-csv/__init__.py:1121-1157 | The stored text of each declared field is the canonical form of the value given for it. |
| `CsvFields.RowShows` | skills/erhua-csv/__init__.py:1280-1305 | A row can be shown under a newer schema if and only if the fields it lacks accept its extra values; then exactly the schema names and the extra keys show. |
| `CsvReplay.AppendIsIdempotent` | skills/erhua-csv/__init__.py:586-605 | Repeating an append that took effect, even if its answer was lost, after any other calls that leave the latest version, changes nothing and answers with the stored row and the present balance of its account; it is refused exactly when that balance cannot be written. A repeated reversal is not rejected as already reversed. |
| `CsvReplay.CreateIsIdempotent` | skills/erhua-csv/__init__.py:896-922 | Repeating a create that was announced, even if the process died before answering, changes nothing; it is answered with the dataset as the catalog has it, except that at twenty datasets the cap refuses it. |
| `CsvReplay.CreateLeavesDataset` | skills/erhua-csv/__init__.py:886-944 | A create that announced something or was answered has left the dataset of its request in the catalog. |
| `CsvReplay.VersionIsIdempotent` | skills/erhua-csv/__init__.py:968-990 | Repeating a version request that was announced, even if the process died before answering, after any other calls, changes nothing and is answered with the dataset as the catalog has it. |
| `CsvCreated.VersionRepeated` | skills/erhua-csv/__init__.py:968-990 | A message of an actor that already created a version changes nothing, and is answered if and only if it fits the name and preset and asks for exactly the fields that this version added. |
| `CsvIdentity.SameDatasetSameRequest` | skills/erhua-csv/__init__.py:904-914 | Two requests stand for the same dataset if and only if they agree in chat, message, stripped name, preset and fields. |
| `CsvIdentity.AnsweredInRun` | skills/erhua-csv/__init__.py:886-944 | In every run from an empty workspace a create of a dataset that is answered, new or repeated, is answered with a dataset of the requested name, preset and fields, created by the same message. |
| `CsvQuery.SortRowsSorts` | skills/erhua-csv/__init__.py:1262-1274 | Sorting by creation time and event id is a sorted permutation. |
| `CsvQuery.LogicalRowsCoherent` | skills/erhua-csv/__init__.py:1262-1274 | The logical rows exist and are a sorted permutation of the projections of all stored rows. |
| `CsvQuery.ReachableRowsReadable` | skills/erhua-csv/__init__.py:1262-1305 | In every reachable workspace no stored row blocks a reader. |
| `CsvQuery.MatchedExactly` | skills/erhua-csv/__init__.py:628-629 | Filtering keeps exactly the rows that pass every normalised filter, as often as they occur, still sorted. |
| `CsvQuery.PagesAgree` | skills/erhua-csv/__init__.py:628-653 | Concatenating pages while there is more gives exactly the matched rows; their number and sum are the reported count and sum. |
| `CsvFiltering.FiltersMean` | skills/erhua-csv/__init__.py:1307-1332 | The filters are accepted if and only if each is: an event id in hexadecimal, a value that the declared field takes, or any value under a legal name; a row then matches if and only if its event id, or its value, equals the id asked for, what the value means for the field, or the value itself. |
| `CsvFiltering.AnswersExactly` | skills/erhua-csv/__init__.py:607-653 | An answered query: there is one list of exactly the logical rows that pass every filter, oldest first; the answer is its page at the offset, says whether more follow, how many there are, and their exact sum while totals are small; collecting the pages yields the list. |
| `CsvFiltering.AnsweredRows` | skills/erhua-csv/__init__.py:607-653 | In every group in order: every row of an answer is a logical row that passes every filter, and every logical row that passes them all is on the collected pages. |
| `CsvFiltering.AnsweredIfTaken` | skills/erhua-csv/__init__.py:607-653 | A query is answered if and only if it is legal, its dataset exists, all its filters are acceptable, and the sum it asks for can be written. |
| `CsvQuery.QuerySumIsExact` | skills/erhua-csv/__init__.py:646-652 | The reported sum is exact while running totals stay below 10^(28-F). |
| `CsvQuery.QueryNeedsSum` | skills/erhua-csv/__init__.py:646-653 | A query that asks for the sum of a decimal field is answered if and only if the rounded sum fits in fixed notation; otherwise rows and count are refused with it. |
| `CsvRuns.SumIsRefused` | skills/erhua-csv/__init__.py:646-653 | In the ledger of the two big incomes the query of all rows is answered, and the same query with the sum of the amounts is refused. |
| `CsvQuery.OrphansInvisible` | skills/erhua-csv/__init__.py:1052-1067 | Files left behind by a crash before the catalog event change the answer of no query. |
| `CsvReading.WrittenIsRead` | skills/erhua-csv/__init__.py:1121-1305 | Under every later schema a stored row shows for each field what the value it was prepared with means for that field (a blank one its default, or nothing), whether the field was declared then or took the value over later, and every other key with its value. |
| `CsvReading.AcceptedIsRead` | skills/erhua-csv/__init__.py:1121-1305 | For every accepted request, every later schema and every key, given or not: the key shows what the value it stands for means. In a dataset of one's own that is the value given. In a ledger entry the account is cash, the currency CNY and the time now unless given, and the amount and delta are canonical. In a reversal the time, the category, the note and the reversed id are those given or their defaults, account, currency and amount those of the original; any other key stands for nothing, even if a field declares it. |
| `CsvTrace.AppendedIsShown` | skills/erhua-csv/__init__.py:571-653 | After an answered append and any later calls with crashes anywhere, the rows that queries of the dataset select from contain one for its event, with the projection of the stored row on the newest schema. |
| `CsvTrace.AppendedIsRead` | skills/erhua-csv/__init__.py:571-653 | And if the append stored a new row, every key shows there what it stood for when the row was stored. |
| `CsvTrace.AnswerShowsGiven` | skills/erhua-csv/__init__.py:571-605 | A new append to a dataset of one's own stores who asked, when and under which message with the text of every value, and its answer shows every value as it was given. |
| `CsvTrace.LaterShowsGiven` | skills/erhua-csv/__init__.py:571-653 | After it and any later calls, every row of that event that a query may return shows the request as it was given, under whatever versions were added. |
| `CsvTrace.GivenIsShown` | skills/erhua-csv/__init__.py:375-383 | In both, type by type: a boolean or integer shows itself, a text or enum its stripped text, a date what the calendar gives, a decimal a text of the same number, a blank without default nothing. |
| `CsvReading.ReversalIgnoresRest` | skills/erhua-csv/__init__.py:1182-1205 | Two reversal requests that agree in time, category, note and reversed id store the same row, whatever other keys they have. |
| `CsvReading.ProjectIsLost` | skills/erhua-csv/__init__.py:1182-1205 | A reversal with a project is accepted by a ledger that declares a project, and the stored project is empty. |
| `JsonLimits.ValidateBounded` | skills/qiwe/nats_capture.py:50-83 | The stack loop accepts a value if and only if the number of nodes, every depth, string and key are within the limits; on acceptance it has visited every node exactly once. |
| `JsonLimits.PushEntries` | skills/qiwe/nats_capture.py:75-79 | The dictionary loop accepts if and only if every key is a short enough text, and pushes exactly the values. |
| `JsonLimits.Visit` | skills/qiwe/nats_capture.py:61-83 | One node is accepted if and only if it is within the limits on its own, and exactly its children are pushed; each refusal has its exact condition. |
| `JsonLimits.Walker.Walk` | skills/qiwe/space_agent_completion.py:327-352 | The recursive walk with its shared counter accepts if and only if the counter plus all nodes below fit and each is acceptable. |
| `JsonLimits.ValidatorsAgree` | skills/qiwe/space_agent_completion.py:327-352 | With equal limits the two validators accept exactly the same values. |
| `JsonLimits.WithinMeans` | skills/qiwe/nats_capture.py:50-83 | A value is within the limits if and only if it has at most that many values in all, and each, at the end of its path, is no deeper than the path allows, finite, of a JSON type, with short enough text and keys. |
| `Sanitizer.Collect` | skills/qiwe/nats_capture.py:558-567 | The collector appends exactly the events of the tree to the list it was given. |
| `Sanitizer.EventsListCallbacks` | skills/qiwe/nats_capture.py:558-567 | The events are those of the outermost callback nodes, each once, in document order, and of no other node. |
| `Sanitizer.EventSays` | skills/qiwe/nats_capture.py:578-617 | What an event says: the digest of the stripped request id if it is a text or a number; for each of the six names whether `msgData` has a key of that name; whether the four needed ones are there; and how many other names there are. |
| `Sanitizer.SameName` | skills/qiwe/nats_capture.py:620-628 | Two spellings of a key are one name if they differ in case or in characters that are neither letters nor digits. |
| `Sanitizer.FirstValueIs` | skills/qiwe/nats_capture.py:620-624 | The value under a name is that of the first key with that name, and there is one if and only if some key has it. |
| `Sanitizer.OutputIgnoresTheRest` | skills/qiwe/nats_capture.py:578-617 | Trees with callbacks at the same places that agree on request id and on the set of `msgData` keys have the same output. |
| `Sanitizer.MsgDataValuesAreDropped` | skills/qiwe/nats_capture.py:589-617 | Another `msgData` object with the same keys changes nothing in the output. |
| `SanitizerPasses.EventReadsBack` | skills/qiwe/nats_capture.py:505-549 | Canonicalising a written event changes it in one way only: an empty presence dictionary is filled. |
| `SanitizerPasses.SecondPass` | skills/qiwe/nats_capture.py:468-502 | What a second pass gives, for every input. |
| `SanitizerPasses.OnePassIsEnough` | skills/qiwe/nats_capture.py:468-549 | The sanitizer is idempotent on a value if and only if every callback carries an object where the pass looks for one. |
| `SanitizerPasses.StableAfterTwo` | skills/qiwe/nats_capture.py:468-549 | A third pass never changes anything. |
| `Crawl.Research` | skills/qiwe/official_qiwe_research_worker.py:181-227 | The queue loop terminates within its budgets (depth 2, 4 pages, 12 requests); every address is requested at most once, in order of depth, at its shortest link distance over pages that can be read; unless a budget is used up everything within the depth bound is requested; each readable address gives one page, in order, with the text and the links that the request returned. |
| `Crawl.Enqueue` | skills/qiwe/official_qiwe_research_worker.py:219-222 | Exactly the unvisited children of a page are queued, one level down. |
| `Crawl.NearerIsVisited` | skills/qiwe/official_qiwe_research_worker.py:199-222 | When the front of the queue is at depth d, everything at a smaller link distance was visited, as near as it is. |
| `Crawl.RequestIsShortest` | skills/qiwe/official_qiwe_research_worker.py:204-214 | The address at the front, if new, is at its shortest link distance. |
| `Crawl.FrontIsEntry` | skills/qiwe/official_qiwe_research_worker.py:208-209 | At depth 0 only entry pages occur, so the check for foreign addresses never fires. |
| `Crawl.Encode` | skills/qiwe/official_qiwe_research_worker.py:290-320 | Too many pages, an invalid or repeated page, or a too long document are refused, each if and only if it is so; otherwise exactly the pages are written in order. |
| `Crawl.ResearchAndEncode` | skills/qiwe/official_qiwe_research_worker.py:290-306 | The result of a crawl is encoded, page by page, unless the document is too long: never refused for its number of pages, an invalid page or a duplicate. |
| `EnvQuoting.QuotingRoundTrip` | runtime/hermes/migrate_erhua_livecool_env.py:54-67 | A credential is quoted if and only if it holds no line feed, carriage return or NUL, and then the binding reads back as the credential. |
| `EnvQuoting.Prepare` | runtime/hermes/migrate_erhua_livecool_env.py:117-143 | The rewritten text extends the given one, binds the intro flag once, and binds the credential once so that it reads back, unless it was just written with a line separator of `splitlines`; a conflict is refused if and only if the one nonempty binding reads as something else. |
| `EnvQuoting.PreparingTwice` | runtime/hermes/migrate_erhua_livecool_env.py:105-165 | A second run on the output changes nothing and `check` accepts it, unless the credential was just written and holds a line separator of `splitlines`; then the second run is refused. |
| `EnvQuoting.BrokenIsWritten` | runtime/hermes/migrate_erhua_livecool_env.py:117-138 | A credential with a vertical tab is accepted and written, so the refused second run does occur. |
| `EnvQuoting.BrokenIsNeverRead` | runtime/hermes/migrate_erhua_livecool_env.py:42-61 | A credential with such a separator is never what a binding of any file reads as. |
| `EnvQuoting.AppendBinds` | runtime/hermes/migrate_erhua_livecool_env.py:122-143 | After appending a line a file binds what it bound before, then what the line binds. |
| `Dashboard.Host.PerformApply` | deploy/runner/install-hermes-dashboard.py:176-213 | Whatever fails and wherever the process dies, the chain of records is kept, records are only added and only for this release; a pass leaves the unit and a record of the drop-in as it was read, a restored activation the drop-in as it was read, drift changes nothing, and anything else leaves the drop-in as it was, as it was read, or as a recorded unit. Each verdict (passed, restored, already active, drift, died) has its exact condition. |
| `Dashboard.Host.PerformRollback` | deploy/runner/install-hermes-dashboard.py:153-163 | Records are untouched; the drop-in changes only if it was the unit of this recorded release, and then to what the record says; it is rolled back if and only if that release is active and the write and the restart are done. |
| `Dashboard.Host.SmokeTest` | deploy/runner/install-hermes-dashboard.py:194-203 | It passes if and only if one of the first twelve attempts passes after refusals only (OSError or ValueError), and fails if and only if twelve are refused or one fails otherwise after refusals only. |
| `Dashboard.UnitsDiffer` | deploy/runner/install-hermes-dashboard.py:56-69 | Units of different releases are different texts. |
| `Dashboard.RunKeeps` | deploy/runner/install-hermes-dashboard.py:121-213 | Over all runs: one record per release, each holding the original drop-in as it was read or the unit of a release recorded earlier; the drop-in is the untouched original, the original as it was read, or a recorded unit. |
| `Dashboard.RecordsStand` | deploy/runner/install-hermes-dashboard.py:183-191 | A record is never overwritten. |
| `Dashboard.RollbackReachesOriginal` | deploy/runner/install-hermes-dashboard.py:153-163 | After any runs the drop-in is the untouched original, or rolling back the active release again and again is accepted each time and ends at the original as it was read, within as many steps as there are records. |
| `Dashboard.OriginalComesBack` | deploy/runner/install-hermes-dashboard.py:153-163 | Once the drop-in is no longer the untouched original, rollbacks bring the original back if and only if it has no carriage return. |
| `Dashboard.FailedApplyRestores` | deploy/runner/install-hermes-dashboard.py:192-212 | An activation whose restart or smoke tests fail, and whose restore is written, leaves the drop-in as it was read on entry; that is the drop-in on entry if and only if it has no carriage return. |
| `Dashboard.ReturnsAreLost` | deploy/runner/install-hermes-dashboard.py:176-213 | A drop-in with Windows line ends comes back with plain ones, both from an activation that reports it restored and from one that passed and was rolled back. |
| `ProfileTx.Profile.PerformBackup` | runtime/hermes/profile_transaction.py:107-144 | A backup returns if and only if there was no directory, every step is done, the files have the reviewed digests and nobody changed them; it then has copies and records of them. One that raises and can clean up leaves no directory, unless the creation of the directory itself raised after it took effect. |
| `ProfileTx.Profile.PerformRestoreFiles` | runtime/hermes/profile_transaction.py:168-186 | A restore returns if and only if the copies are there with the recorded hashes and both writes are done; with metadata and copies of two originals both are then back, and no way out puts a new configuration beside the old environment. |
| `ProfileTx.Profile.PerformActivate` | runtime/hermes/profile_transaction.py:189-214 | An activation returns if and only if the files are as recorded, both candidates are there and the writes of environment, configuration and metadata are all done; the candidate is then in place and `verify_activated` holds. From backed up originals it is undone, with both originals back, if and only if a write raises and the undo is undisturbed; it dies if and only if a write that it gets to is the last; and no way out breaks the pair or loses the copies. |
| `ProfileTx.BackupIsIntact` | runtime/hermes/profile_transaction.py:107-144 | A backup that returns has copies and records of the reviewed files as they still are; one that raises and can clean up leaves a directory if and only if its creation raised after it took effect. |
| `ProfileTx.LeftoverBlocks` | runtime/hermes/profile_transaction.py:107-144 | A directory left in that way makes every later backup raise, and stays. |
| `ProfileTx.ActivateKeeps` | runtime/hermes/profile_transaction.py:189-231 | From backed up originals: a normal return satisfies `verify_activated` with the candidate in place; a failure whose own restore succeeded leaves both originals; a new configuration never stands beside the old environment; and each way out (returned, undone, died) has its exact condition on the writes. |
| `ProfileTx.BackupExits` | runtime/hermes/profile_transaction.py:107-144 | A backup of unchanged files with the reviewed digests returns if every step is done, and no other does; a return leaves exactly the copies and the records. |
| `ProfileTx.RestoreRecovers` | runtime/hermes/profile_transaction.py:155-220 | After any runs of activate and restore, cut off anywhere, one undisturbed restore reinstates content, mode and owner of both files. |
| `ProfileTx.UndoNeedsCopies` | runtime/hermes/profile_transaction.py:189-214 | An activation in which any of the three writes raises is undone if and only if the copies are there with the recorded hashes; activation does not look for them first. |
| `ProfileTx.AbandonedBackupMisleads` | runtime/hermes/profile_transaction.py:107-144 | A backup that raises after its metadata was written, and is cleaned up, leaves metadata that matches both files and no copies; an activation then starts, and when it raises the new environment stays. |
| `Drain.Gateway.Poll` | runtime/hermes/restart_anan.py:38-62 | The restart is called, once, if and only if some quiet run of polls (own marker, expected process, draining, no active agent) has ends two time units apart with different updates, before anything ended the loop; the outcome is that of the first turn that ends it: a signal, the deadline, a changed marker, another process, or the restart, which succeeded or failed. |
| `Drain.Gateway.DrainAndRestart` | runtime/hermes/restart_anan.py:25-71 | At most one restart; if the cleanup completes our marker is gone, and a marker that is not ours is never cleared; the outcome is that of the loop unless the cleanup fails, which has its exact condition. |
| `PmsOps.RunKeeps` | skills/pms-operations/__init__.py:135-208 | The invariant of the protocol over every interleaving of threads, crashes, lost and repeated messages. |
| `PmsOps.SendEffectKeeps` | skills/pms-operations/__init__.py:179-183 | Sending the confirmation uses up the one permission that the claim gave. |
| `PmsOps.AtMostOneCommit` | skills/pms-operations/__init__.py:162-208 | At most one confirmation per action is ever sent, under its execution key; recovery and repeated execution never confirm again; at most one commit per action. |
| `PmsOps.SavedResultsAreTrue` | skills/pms-operations/__init__.py:120-133 | A saved EXECUTED means committed, a saved NOT_EXECUTED means not committed, and for an action that is only prepared, waiting, paused, cancelled or handed over nothing was sent. |
| `PmsCancel.CancelledIsNotSent` | runtime/sidecar/src/person_collaboration/store/business.rs:1199-1240 | After any run in which an action was cancelled, and any further run without a pause of it, it is cancelled or handed over, and nothing was sent or committed for it. |
| `PmsCancel.PausedIsSent` | runtime/sidecar/src/person_collaboration/store/business.rs:938-944 | In every reachable state with a cancelled action and a free thread there is a continuation, starting with a pause, that commits it. |
| `PmsCancel.CancelHoldsUntilPause` | runtime/sidecar/src/person_collaboration/store/business.rs:1199-1240 | A cancelled action is committed in no continuation without a pause of it, and in some continuation with one. |
| `PmsCancel.CancelledIsCommitted` | runtime/sidecar/src/person_collaboration/store/business.rs:1199-1240 | The run: start, cancel, pause, resume, preview, execute, commit. |
| `PmsPreview.RejectedIsNotSent` | skills/pms-operations/__init__.py:162-177 | In every run: a preview that was answered as rejected, and whose claim stands when that is stored, leaves its action rejected for good; no continuation sends or commits anything for it. |
| `PmsPreview.PreviewedWaits` | skills/pms-operations/__init__.py:162-177 | In every run: a good preview whose claim stands when it is stored leaves its action waiting, with nothing sent. |
| `PmsPreview.HandedOverIsNotSent` | runtime/sidecar/src/person_collaboration/store/business.rs:1199-1240 | In every run: a draft, waiting, paused or cancelled action that is handed over stays with the person, who can finish it, in every continuation, and nothing is sent or committed for it. |
| `PmsPreview.PreviewKeys` | skills/pms-operations/__init__.py:162-208 | In every run previews go out under keys of versions their action has had, and while the claim of the asking thread stands under that of the current version, also in a recovery. |
| `PmsPreview.ResumeIsFresh` | skills/pms-operations/__init__.py:187-189 | After a resume the action is a draft whose preview key no earlier preview was asked for under. |
| `PmsHost.OthersKeep` | skills/pms-operations/__init__.py:162-208 | Whatever other threads and the other side do between two calls, the invariant, the kinds of the actions and the own thread stay. |
| `PmsHost.Operations.Execute` | skills/pms-operations/__init__.py:179-185 | Claim, confirm, save, with anything in between and death at any call: at most one request with an effect, under the execution key; a saved outcome is the one on record. If the claim is granted and the host survives, the request is sent and a result is saved: the outcome on record when the answer arrives, if there is one. If it is not granted, nothing is sent. |
| `PmsHost.Operations.PreviewAction` | skills/pms-operations/__init__.py:162-177 | For a command a preview never sends a request with an effect; a quote sends at most one, under its execution key, and saves only the outcome on record. A draft is pursued by a host that survives: a command is previewed, and if its claim still stands when the answer is stored, the action waits for a person exactly if the preview was good and is rejected for good exactly if it was rejected; a stale claim changes nothing; a quote is sent. |
| `PmsHost.Operations.PrepareAction` | skills/pms-operations/__init__.py:135-160 | Starting an action, or finding it started: a draft is pursued by a host that survives, nothing else is, and for a command no request with an effect is sent. |
| `PmsHost.Operations.ResumeAction` | skills/pms-operations/__init__.py:187-189 | The action is resumed and, if it is then a draft, pursued by a host that survives; no effect is sent for a command, and for a quote at most one, under its execution key. |
| `PmsHost.Operations.RecoverAction` | skills/pms-operations/__init__.py:191-208 | Recovery never claims an execution and never sends an effect for a command. An action in flight is followed up by a host that survives: a lost preview is asked for again, and its answer stored as what it was if the claim still stands; otherwise a result is saved, namely the outcome on record at the query if there is one; when it stays unknown a request to close the execution key is on the wire. |
| `PmsHost.Operations.LookUp` | skills/pms-operations/client.py:217-228 | A host that survives saves a result: the outcome on record under the execution key at the query, if there is one. If it stays unknown, a request to close that key is on the wire. No effect is sent. |
| `PmsHost.StoreSaves` | skills/pms-operations/__init__.py:120-133 | A thread that saves a result holds the current claim: the action ends in the phase of the recorded outcome, whoever saved it first. |
| `PmsHost.ResolveCloses` | skills/pms-operations/client.py:217-228 | Once a closing request was handled for a key without an outcome, nothing is ever committed for it, whatever is still on the wire. |
| `PmsOps.ResultsStayTrue` | skills/pms-operations/__init__.py:191-208 | No later step, late packet or repeated request makes a saved result false. |
| `Reminders.Host.ProcessWork` | skills/pms-operations/reminder_host.py:79-113 | One work item: in phase unknown nothing is sent for it, and if it is still unknown and its receipt is complete, it becomes sent with that receipt; in phase claimed it is resumed with its own claim and nothing is claimed anew. A send is made if and only if the claim stands or is granted and the validation was answered and permits it. The reported status: sent only if the item is, with the receipt on record, and always if nothing fails or interferes; without a send, exactly the status that the observation, the claim or the validation gives, suppressed if and only if a standing claim is not permitted. |
| `Reminders.DueIsSent` | skills/pms-operations/reminder_host.py:90-107 | An item that is due, and that nothing is in flight for, is sent in a turn in which every call is answered and nobody comes in between. |
| `Reminders.ChangedIsSuppressed` | runtime/sidecar/src/person_collaboration/store/business_reminders.rs:431-447 | If at the gate it is no longer due, or its plan has changed, it is suppressed instead. |
| `Reminders.Host.RunOnce` | skills/pms-operations/reminder_host.py:76-117 | One result per work item whatever raises, and the invariant is kept with other processes running in between. |
| `Reminders.SentOnceAndRecorded` | skills/pms-operations/reminder_host.py:43-56 | Over all runs with crashes, failed sends and lost answers no claim is sent twice, and an item that counts as sent has the receipt its file records. |
| `Reminders.UnknownOnlySettles` | skills/pms-operations/reminder_host.py:85-89 | An item in phase unknown is never claimed or permitted again; only settling with the recorded receipt changes it. |
| `Reminders.UnknownUntilSettled` | skills/pms-operations/reminder_host.py:85-89 | Over any steps of other processes an unknown item stays as it is until it is settled, with the receipt that the adapter then has on record. |
| `Welcome.WelcomeHost.Deliver` | skills/person-foundation/welcome_host.py:33-52 | A presentation is claimed and sent at most once, by the run that is given the claim; it counts as delivered if and only if that send is answered and the report arrives, with the receipt of the send; what is reported and what it is otherwise has its exact condition. |
| `Welcome.WelcomeHost.RecoverDelivery` | skills/person-foundation/welcome_host.py:54-62 | Recovery never sends or claims, settles a send that the transport remembers with its receipt, leaves any other as it was, and reports the status that is stored. |
| `Welcome.SentAtMostOnce` | skills/person-foundation/welcome_host.py:33-62 | From a fresh presentation, over every sequence of deliveries and recoveries with failures and crashes anywhere: at most one claim and one send, and delivered means sent, with the receipt of that send. |

## Left out

- CSV snapshots (`_snapshot_after_mutation`, `_copy_snapshot`, `_prune_snapshots`): copies whose failure does not touch the committed files.
- CSV `list`: shows what replay and schemas give; the public description of a dataset is modelled only as part of an answer.
- File modes, ownership, symlinks, `fsync`, `flock` and directory checks: files are atomic values and the lock is an order of calls.
- Row checksums, catalog checksums and the torn last line of the catalog: logs are sequences of well-formed entries.
- The text of CSV lines and JSON documents: rows and values are structured; encoded sizes are parameters.
- JSON shape checks of field definitions beyond type, name, required, default and enum values.
- Unicode decimal digits and underscores in numbers: the decimal parser reads ASCII digits.
- Falsy values other than a text for `reverses_event_id` are handled as the code does and stored as text; the ledger laws speak of rows whose column names an event.
- Timestamps of rows are texts; ordering by them is ordering of texts.
- `parse_strict_bounded_json` and duplicate keys: the validators start from parsed values.
- `int()` on floats too large for it raises an error that the sanitizer does not catch; here it is a parameter that only returns or fails.
- HTTP fetching and HTML parsing of the crawl, and errors raised by the session itself: a request returns a page or nothing.
- Crawl.Encode: the size of the document is a parameter.
- The configuration file that holds the credential, file reports and atomic writes of the environment migration.
- The copy of the dashboard artifact and its manifest checks are one flag; drift of the drop-in by other programs during a run is not modelled.
- A drop-in that is not UTF-8: reading it raises, which counts as a failed check.
- A kill of the drain process that skips its `finally`: the marker then stays.
- Texts with lone surrogates, on which Python's encoder raises: texts are sequences of Unicode scalar values.
- The drain marker is not replaced between the last read and the clearing call.
- PMS reads, quotes as read-backs, hand-off read-backs, links and payment checks: they do not confirm anything.
- The classification of HTTP answers in `client.py`: only whether a receipt, a rejection or nothing arrives is modelled, since every other answer is saved as unknown.
- Expiry of previews and the human confirmation itself: a claim to execute may be granted or not.
- The plan that the reminder broker computes from orders and applications: it is an input at each look.
- Welcome.WelcomeHost.Deliver: one presentation and one host process at a time; runs follow each other in any order and may die anywhere.
- Preparing and rendering welcome presentations, contact refresh and group confirmations.
