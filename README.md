# amigo: a verified model of the migration engine

amigo is a small command-line tool that keeps a SQL schema up to date. It works from a
directory of migration files, each holding a `migrate_up` and a `migrate_down` section.
The ledger table `amigo_migrations` records which files have run and their positions.
The engine exists twice. `pkg/cmd.go` (`Migrate`, wrapped by `Transact`) writes the ledger
through the `*sql.DB` handle. `cmd/cmd.go` (`Init`) writes it through the `*sql.Tx`. The
model covers both copies:

- `text.dfy` (module `Text`): `strings.Trim` with the cutset `" \n"`, `strings.Contains`,
  ASCII `strings.ToLower`, `strings.ReplaceAll` of one character, and the line splitting
  `bufio.Scanner` applies to the bytes of a template.
- `order.dfy` (`Order`): Go's byte-wise string order and `sort.Strings`.
- `script.dfy` (`Script`): `readFile`. It is a two-state scanner over a file's lines,
  written as a loop (`ReadFile`) and proved against a specification (`Parse`).
- `sql.dfy` (`Sql`): the part of the database the engine can observe.
  - The state is the ledger rows in insertion order, together with the bodies run so far.
  - A server may refuse any request, given as a function parameter.
  - Classes `Database` (autocommit) and `Tx` (pending statements, commit, rollback).
- `naming.dfy` (`Naming`): `dashify`, the two file skeletons, and the name of a new
  migration. It also proves that the skeletons read back as the sections they were written with.
- `engine.dfy` (`Engine`): the up, down and rollback walks as specification functions
  (`UpFrom`, `RevertFrom`), their loops on the handles, and the properties of the walks.
  The only difference between the two copies is the handle the ledger goes through, the
  `Route` parameter (`ViaDb` for `pkg/cmd.go`, `ViaTx` for `cmd/cmd.go`).
- `settings.dfy` (`Settings`): the inputs.
  - `flag.Arg` and the default action.
  - `getEnv`, `DB_DRIVER` and `DB_QUERY`.
  - `strconv.Atoi` with its error dropped, which gives the rollback step count.
- `pkg_migrate.dfy` (`Pkg`): `Transact` and the branches of `Migrate`.
- `cmd_init.dfy` (`Cmd`): `configSql` and the cases of `Init`.

The ledger is a sequence of `(name, priority)` rows, not a map from priority to name. The
table has a unique name column but no unique priority column, so duplicate priorities are
possible. A map would hide them. `retrieveMigratedList` is a stable sort of the rows by
priority. SQL leaves the order of equal priorities open, and the model keeps the table
order for them.

A `log.Fatal` or a panic ends the process. The model records this as the `fatal` flag of
an `Outcome`, together with the committed state left behind. A transaction abandoned by
`log.Fatal` is discarded by the server, just like a rolled-back one.

`cmd/cmd.go`'s `Init` drops the error of its final `tx.Commit()`. A refused commit
therefore ends normally with nothing changed (`Cmd.Settle`). `pkg/cmd.go` reports the same
error through `log.Fatal` (`Pkg.Settle`).

## Model

| member | source | states |
|---|---|---|
| Text.Trim | pkg/cmd.go:31 | the result has no space or line feed at either end |
| Text.TrimCharacterized | pkg/cmd.go:31 | the input is the result with a run of spaces and line feeds before and after it; tabs and every other character survive |
| Text.TrimKeeps | pkg/cmd.go:44-45 | text with no space or line feed at either end is left unchanged |
| Text.TrimTwice | pkg/cmd.go:44-45 | trimming is idempotent |
| Text.TrimIsPiece | pkg/cmd.go:44-45 | the trimmed text is a contiguous piece of the input |
| Text.ToLower | pkg/cmd.go:203 | same length; upper-case ASCII letters are shifted to lower case and every other character is kept |
| Text.ReplaceChar | pkg/cmd.go:203 | same length; each occurrence of the old character becomes the new one and nothing else changes |
| Text.LineEnd | pkg/cmd.go:30 | the index of the first line feed, or the length when there is none |
| Text.ScanJoinRoundTrip | pkg/cmd.go:27-30 | splitting lines joined by line feeds gives those lines back, when no line holds a line feed or ends in a carriage return and the last line is not empty |
| Text.ContainsTransitive | pkg/cmd.go:32-34 | an occurrence inside a piece of s is an occurrence in s |
| Text.AbsentChar | pkg/cmd.go:32-34 | a character of t that is missing from s rules out t occurring in s |
| Order.BelowTotal | pkg/cmd.go:119 | any two strings are comparable |
| Order.BelowAntisymmetric | pkg/cmd.go:119 | strings below each other are equal |
| Order.BelowTransitive | pkg/cmd.go:119 | the string order is transitive |
| Order.InsertSpec | pkg/cmd.go:119 | inserting into a sorted sequence keeps it sorted and adds exactly that element |
| Order.SortStrings | pkg/cmd.go:119 | the result is sorted and a permutation of the input |
| Order.SortSorted | pkg/cmd.go:119 | a sorted sequence is its own sort |
| Order.SortedUnique | pkg/cmd.go:119 | two sorted permutations of one collection are equal, so the order of the listing does not matter |
| Script.TrimAll | pkg/cmd.go:31 | definition: each line trimmed, in order |
| Script.Parse | pkg/cmd.go:21-50 | definition: the up section and the down section of a file's lines; Script.ReadFile, Script.Layout and Script.ReparseUpText state what they are |
| Script.ParseAll | pkg/cmd.go:21-50 | definition: every file that can be opened maps to its up and down sections |
| Script.ReadFile | pkg/cmd.go:21-50 | the scanning loop returns exactly the specified up and down sections, each with no space or line feed at either end |
| Script.ScanStep | pkg/cmd.go:31-42 | one line switches to up when it names migrate_up, else to down when it names migrate_down, else adds its trimmed text and a line feed to the active section |
| Script.KeptPlain | pkg/cmd.go:31-35 | every kept line is trimmed and is not a marker line |
| Script.NoMarkerInBody | pkg/cmd.go:32-35 | neither marker word occurs in either section |
| Script.UpMarkerWins | pkg/cmd.go:32-35 | a line naming migrate_up switches to up even when it also names migrate_down |
| Script.NoMarkersAllUp | pkg/cmd.go:29 | a file without markers is entirely up section and has an empty down section |
| Script.KeptAppend | pkg/cmd.go:36-42 | lines without markers go, in order, to the section active before them, and the other section is untouched |
| Script.Layout | pkg/cmd.go:30-43 | an up marker, up lines, a down marker and down lines give exactly the trimmed up lines and the trimmed down lines |
| Script.ReparseUp | pkg/cmd.go:36-44 | reading back the kept up lines behind an up marker gives the same up section |
| Script.ReparseUpText | pkg/cmd.go:27-44 | writing the up section's text back behind an up marker, splitting it into lines and reading it again gives the same up section, when no trimmed line holds a line feed or ends in a carriage return |
| Script.BodyJoin | pkg/cmd.go:38-44 | a section's text is its kept lines joined by line feeds, with the blank lines at either end dropped |
| Script.Partition | pkg/cmd.go:36-42 | every non-marker line lands in exactly one section |
| Script.ContainsTerminated | pkg/cmd.go:38-40 | a word without line feeds that occurs in the accumulated text occurs in one of its lines |
| Sql.Without | pkg/cmd.go:245 | no remaining row has the deleted priority, and every remaining row was there before |
| Sql.WithoutKeeps | pkg/cmd.go:245 | every row with another priority stays |
| Sql.WithoutAppend | pkg/cmd.go:245 | the delete acts on each row by itself: deleting from two runs of rows is deleting from each, in order |
| Sql.OutsideSpec | pkg/cmd.go:178-192 | after the deletes of a revert walk over priorities lo+1..hi, exactly the rows outside that range stay |
| Sql.OutsideWithout | pkg/cmd.go:184 | deleting the top priority of the range first leaves the rest of the range to delete |
| Sql.SortRows | pkg/cmd.go:222 | the rows ordered by priority, a permutation of the table |
| Sql.SortRowsKeeps | pkg/cmd.go:222 | rows already in priority order are returned as they are |
| Sql.NamesOf | pkg/cmd.go:226-233 | definition: the name column of each row, in order |
| Sql.Contig | pkg/cmd.go:122-137 | definition: the ledger of a clean history, name k at priority k |
| Sql.Retrieve | pkg/cmd.go:220-235 | definition: the name column of the rows sorted by priority; Sql.SortRows and Sql.RetrieveContig state what it gives |
| Sql.RetrieveContig | pkg/cmd.go:220-235 | reading a clean history gives its names in order |
| Sql.WithoutTop | pkg/cmd.go:244-250 | deleting the top priority of a clean history leaves the clean history one shorter |
| Sql.RecordedContig | pkg/cmd.go:213 | a name is in a clean ledger exactly when it is one of its names (the unique name constraint) |
| Sql.ApplyAllAppend | pkg/cmd.go:64 | committing two batches in turn is committing their concatenation |
| Sql.Database.Exec | pkg/cmd.go:238 | an admitted statement is committed at once; a refused one changes nothing |
| Sql.Database.Query | pkg/cmd.go:222 | the ledger names in priority order, or None when the server refuses |
| Sql.Database.Begin | pkg/cmd.go:53 | a fresh open transaction with no statements exactly when the server accepts |
| Sql.Tx.Exec | pkg/cmd.go:253 | an admitted statement joins the pending ones; a refused one changes nothing |
| Sql.Tx.Query | cmd/cmd.go:229 | the ledger names as the transaction sees them, or None |
| Sql.Tx.Commit | pkg/cmd.go:64 | the pending statements become committed exactly when the server accepts; the transaction is closed either way |
| Sql.Tx.Rollback | pkg/cmd.go:62 | the pending statements are dropped and the transaction is closed |
| Naming.Dashify | pkg/cmd.go:202-204 | same length, no spaces, no upper-case letters; spaces become underscores and every other character is lowered |
| Naming.DashifyTwice | pkg/cmd.go:202-204 | dashify is idempotent |
| Naming.Create | pkg/cmd.go:77-103 | the path is path/stamp_create_slug.sql with the dashified name ("some" by default); the table skeleton is written exactly when the slug contains "table" |
| Naming.Template | pkg/cmd.go:85-100 | definition: the bytes of the table skeleton or of the other one; Naming.TableTemplateParses, Naming.EmptyTemplateParses and Naming.SkeletonScans state what they read back as |
| Naming.TemplatesDiffer | pkg/cmd.go:89-100 | the two skeletons differ |
| Naming.TableTemplateParses | pkg/cmd.go:89-96 | reading back the table skeleton gives its create statement as up and "drop table TABLE_NAME;" as down |
| Naming.EmptyTemplateParses | pkg/cmd.go:97-100 | reading back the other skeleton gives two empty sections |
| Naming.SkeletonScans | pkg/cmd.go:89-100 | the bytes of either skeleton split back into its lines |
| Naming.NamesFollowStamps | pkg/cmd.go:101 | of two files created with stamps of the same width, the earlier stamp sorts first whatever the names |
| Engine.Files | pkg/cmd.go:113-118 | exactly the names of the entries that are not directories; hidden files included |
| Engine.ListNames | pkg/cmd.go:113-119 | the loop collects the non-directory names and sorts them |
| Engine.Bodies | pkg/cmd.go:126 | definition: the section of each named file, in order |
| Engine.WorkSpec | pkg/cmd.go:122-125 | up works on exactly the positions not recorded at their own index, each once, in ascending order |
| Engine.UpFrom | pkg/cmd.go:122-137 | definition: the up walk over the sorted names, as a function of the server's answers; Engine.UpTraced states where it ends |
| Engine.UpTraced | pkg/cmd.go:122-137 | whatever the server answers, up goes through its work positions in order and stops at the first failure; the transaction then holds their bodies and, on the tx route, their rows, which on the db route are already committed |
| Engine.UpAccepted | pkg/cmd.go:122-137 | against a server that refuses nothing, with distinct names, every file readable and no name it must insert already recorded, up finishes |
| Engine.UpSynced | pkg/cmd.go:123-124 | over a ledger that already records every name at its index, up runs nothing and finishes |
| Engine.UpClean | pkg/cmd.go:104-143 | against a server that refuses nothing, up over a ledger of the first m names records every name at its index and runs the up bodies of the others, in order |
| Engine.Budget | pkg/cmd.go:177-191 | the number of positions a revert walk can go through is never more than are left |
| Engine.ReverseSpec | pkg/cmd.go:149 | the names from last to first: same length, position k holds the name at n-1-k |
| Engine.RevertFrom | pkg/cmd.go:149-192 | definition: the down and rollback walk from the top position, as a function of the server's answers; Engine.RevertTraced states where it ends |
| Engine.RevertTraced | pkg/cmd.go:149-192 | whatever the server answers, a revert walk goes through positions i, i-1, ... in order; it ends exactly when the step count is used up or the ledger runs out, or at the first position whose file is missing, whose down body is refused or whose delete is refused; the transaction then holds the down bodies of the positions gone through and, on the tx route, their deletes, which on the db route are already committed |
| Engine.RevertTraceEffect | pkg/cmd.go:149-159 | committing the statements of the positions lo+1..hi on the tx route deletes exactly those priorities and runs their down bodies, highest first |
| Engine.RevertTxWalk | cmd/cmd.go:159-168 | on the tx route a revert walk commits nothing, and a finished one leaves the top t rows deleted and their down bodies run, highest first, for some t |
| Engine.RevertAccepted | pkg/cmd.go:178-191 | against a server that refuses nothing, a revert walk deletes the top rows one at a time, highest first, and runs their down bodies, stopping after steps of them |
| Engine.RevertRoute | pkg/cmd.go:149-159 | on the tx route a revert walk leaves the committed state alone; on the db route it commits no body |
| Engine.RevertClean | pkg/cmd.go:144-166 | against a server that refuses nothing, reverting a clean ledger of n rows deletes the top t rows and runs their down bodies highest first, t being what the step count allows |
| Engine.UpTxConsistent | cmd/cmd.go:129-147 | on the tx route, whatever the server answers, nothing is committed before the end, and a finished walk leaves every recorded name with its up body run |
| Engine.ConsistentExtend | cmd/cmd.go:134-139 | recording rows together with their up bodies keeps ledger and schema in step |
| Engine.AddMigration | pkg/cmd.go:237-243 | the insert goes to the route's handle, with the result of the spec step |
| Engine.RemoveMigration | pkg/cmd.go:244-250 | the delete goes to the route's handle, with the result of the spec step |
| Engine.UpOne | pkg/cmd.go:123-135 | one position of the up loop leaves the walk exactly where the specification's step at that position does: stopped there with its reason, or ready for the next position |
| Engine.UpLoop | pkg/cmd.go:122-137 | the loop ends exactly where the up walk specification does |
| Engine.RevertOne | pkg/cmd.go:179-191 | one position of the down or rollback loop leaves the walk exactly where the specification's step does, and stops there once k reaches steps |
| Engine.RevertLoop | pkg/cmd.go:178-192 | the loop ends exactly where the revert walk specification does, including the break when k reaches steps |
| Settings.Arg | pkg/cmd.go:72 | definition: the positional argument, or "" when there are fewer |
| Settings.Action | pkg/cmd.go:72-75 | the first argument, "create" when it is missing or empty; the action is create exactly when the first argument is missing, empty or "create" |
| Settings.GetEnv | cmd/cmd.go:20-26 | the default exactly when the variable is unset, empty or equal to the default; the value otherwise |
| Settings.Driver | cmd/cmd.go:29 | DB_DRIVER when it is set and not empty, mysql otherwise |
| Settings.Dsn | cmd/cmd.go:30 | DB_QUERY, empty when unset |
| Settings.Saturate | pkg/cmd.go:172 | the value when it fits in 64 bits, else the nearer bound |
| Settings.ScanDigits | pkg/cmd.go:172 | the digit loop of strconv.ParseUint gives the value of a digit string that fits in 64 unsigned bits, a range error for one that does not, and a value for nothing else |
| Settings.ScanStops | pkg/cmd.go:172 | once the digit loop has stopped with an error, nothing after that point changes it |
| Settings.Atoi | pkg/cmd.go:172 | within the 64-bit range; a digit string gives its value, or the largest int64 when it does not fit; the empty string gives 0 |
| Settings.AtoiDecimal | pkg/cmd.go:172 | a decimal count with or without a sign reads back as itself |
| Settings.AtoiRejects | pkg/cmd.go:172 | a character that is not a digit, met before the value overflows, makes the text read as 0, a sign before it or not |
| Settings.AtoiSaturates | pkg/cmd.go:172 | digits whose value does not fit in an int64 read as the bound on the sign's side, whatever follows once they exceed the unsigned range |
| Settings.Steps | pkg/cmd.go:168-172 | definition: the second argument, "1" when it is missing, read by Atoi; Settings.StepsDefaults states its defaults |
| Settings.StepsDefaults | pkg/cmd.go:168-172 | no argument means one step; a word that does not start with a digit or sign means zero |
| Pkg.Opened | pkg/cmd.go:53-56 | definition: Begin, createMigrationTable and retrieveMigratedList are all allowed |
| Pkg.Settle | pkg/cmd.go:57-67 | fatal exactly when the walk stopped or the commit was refused; a fatal end leaves what was committed on the handle, otherwise the transaction's view |
| Pkg.UpRun | pkg/cmd.go:104-143 | a refused Begin, ledger creation or ledger read, or an unreadable directory, ends in log.Fatal with nothing changed |
| Pkg.RevertRun | pkg/cmd.go:144-198 | a refused Begin, ledger creation or ledger read ends in log.Fatal with nothing changed |
| Pkg.UpFresh | pkg/cmd.go:104-143 | against a server that refuses nothing, up records every sorted name at its index and runs the up bodies of the unrecorded ones, in order |
| Pkg.UpAgain | pkg/cmd.go:122-124 | whatever the server answers, a second up over the ledger it produced changes nothing |
| Pkg.RevertRunClean | pkg/cmd.go:144-198 | against a server that refuses nothing, down or rollback over a clean ledger undoes the top t rows, highest first |
| Pkg.DownClean | pkg/cmd.go:144-166 | against a server that refuses nothing, down runs every down body highest first and empties the ledger |
| Pkg.RollbackClean | pkg/cmd.go:167-198 | against a server that refuses nothing, rollback undoes the top min(steps, n) rows, and all of them when steps <= 0 |
| Pkg.UpLedgerAhead | pkg/cmd.go:127-134 | as written, a refused second body rolls back the first body but keeps its committed ledger row: the ledger claims a migration that never ran |
| Pkg.UpKeepsConsistent | pkg/cmd.go:52-69 | with the ledger written on the transaction, up never leaves ledger and schema out of step, whatever the server answers |
| Pkg.RevertLedgerBehind | pkg/cmd.go:149-159 | as written, a refused second down body rolls back the first down body but keeps its committed delete: the schema still holds a migration the ledger no longer records |
| Pkg.RevertKeepsInStep | pkg/cmd.go:52-69 | with the ledger written on the transaction, down and rollback leave the database as it was or with the top t rows deleted and exactly their down bodies run, whatever the server answers |
| Pkg.Finish | pkg/cmd.go:57-67 | rollback after an error, otherwise commit and report its error; the committed state changes exactly on a successful commit |
| Pkg.Prepare | pkg/cmd.go:53-56 | Begin, createMigrationTable and retrieveMigratedList succeed exactly when the server allows them, and change nothing |
| Pkg.UpBranch | pkg/cmd.go:104-143 | the up branch on the handles ends exactly as Pkg.UpRun specifies |
| Pkg.RevertBranch | pkg/cmd.go:144-198 | the down and rollback branches on the handles end exactly as Pkg.RevertRun specifies |
| Pkg.Close | pkg/cmd.go:57-67 | after a loop, the end is what Pkg.Settle specifies |
| Pkg.Migrate | pkg/cmd.go:70-200 | dispatch on the action: create returns the file to write, up, down and rollback end as specified, any other action does nothing |
| Cmd.Configured | cmd/cmd.go:34-40 | definition: configSql succeeds, the driver being registered and accepting the data source name |
| Cmd.Ready | cmd/cmd.go:109-115 | definition: configSql, createMigrationTable, Begin and the ledger read are all allowed |
| Cmd.Settle | cmd/cmd.go:134-147 | fatal exactly when the walk stopped; a finished walk commits its view when the server accepts and otherwise ends normally with nothing changed |
| Cmd.UpRun | cmd/cmd.go:108-148 | a failed configSql, refused ledger creation, Begin or ledger read, or an unreadable directory, ends the process with nothing changed |
| Cmd.RevertRun | cmd/cmd.go:149-172 | a failed configSql, refused ledger creation, Begin or ledger read ends the process with nothing changed |
| Cmd.UpAtomic | cmd/cmd.go:134-143 | whatever the server answers, a fatal up leaves the database as it was |
| Cmd.RevertAtomic | cmd/cmd.go:159-168 | whatever the server answers, a fatal down or rollback leaves the database as it was |
| Cmd.UpFresh | cmd/cmd.go:108-148 | against a server that refuses nothing, up records every sorted name at its index and runs the up bodies of the unrecorded ones |
| Cmd.UpAgain | cmd/cmd.go:129-132 | a second up changes nothing whatever the server answers, and ends normally once it can start |
| Cmd.RevertRunClean | cmd/cmd.go:149-172 | against a server that refuses nothing, a revert over a clean ledger undoes the top t rows, highest first |
| Cmd.DownClean | cmd/cmd.go:149-172 | against a server that refuses nothing, down runs every down body highest first and empties the ledger |
| Cmd.RollbackClean | cmd/cmd.go:183-205 | with configSql before Begin, rollback undoes the top min(steps, n) rows, and all of them when steps <= 0 |
| Cmd.RollbackAsWritten | cmd/cmd.go:173-180 | definition: the rollback case as written panics before anything reaches the server |
| Cmd.RollbackNeverReverts | cmd/cmd.go:178-182 | as written, rollback panics with every row still in place, where the corrected order removes rows and ends normally |
| Cmd.UpKeepsConsistent | cmd/cmd.go:108-148 | whatever the server answers, up never leaves ledger and schema out of step |
| Cmd.Prepare | cmd/cmd.go:109-115 | configSql, createMigrationTable, Begin and the ledger read succeed exactly when they are allowed, and change nothing |
| Cmd.Close | cmd/cmd.go:133-147 | after a loop, the end is what Cmd.Settle specifies |
| Cmd.UpCase | cmd/cmd.go:108-148 | the up case on the handles ends exactly as Cmd.UpRun specifies |
| Cmd.RevertCase | cmd/cmd.go:149-172 | the down case, and rollback in the order of down, end exactly as Cmd.RevertRun specifies |
| Cmd.Init | cmd/cmd.go:73-207 | dispatch on the action: create returns the file to write, up, down and rollback end as specified, any other action does nothing |

## Left out

- File system I/O (`os.Open`, `ioutil.ReadDir`, `ioutil.WriteFile`). The listing is a parameter (`None` when it fails), file contents are a map from name to lines, and `create` returns the path and bytes it would write.
- `bufio.Scanner`: `ReadFile` takes the lines of a file. `scanner.Err` and the 64 KiB token limit are not modelled. `Text.ScanLines` models the splitting only to show that the skeletons read back.
- `strings.ToLower` is modelled on ASCII letters only. Unicode case mapping is not.
- `log.Println` output. `log.Fatal` and panics are only the `fatal` flag of the outcome.
- The `panic`/`recover` re-throw in `Transact`. No modelled callback panics.
- `main.go` is not part of this model. It calls `Migrate` with four arguments where `Migrate` takes two.
- Flag parsing: the `-path` flag of `cmd/cmd.go` is the `path` parameter.
- `time.Now().UTC().Format`: the stamp is a parameter.
- The DDL text of `createMigrationTable` and driver-specific SQL. `CreateLedger` changes nothing the engine can see.
- Which data source names a driver accepts is the `dsnOk` parameter. Connection failures, locks and syntax errors are all refusals of the server parameter.
- The order of rows with equal priorities is fixed as table order. SQL leaves it open.
- A `*sql.DB` query in `pkg/cmd.go` reads the committed state only. The model reads only the committed rows there, and it ignores what another connection could commit in between.
- Concurrency between processes.
- Cmd.UpAtomic, Cmd.RevertAtomic, Cmd.UpKeepsConsistent, Engine.UpTxConsistent, Engine.RevertTxWalk, Pkg.UpKeepsConsistent, Pkg.RevertKeepsInStep: these assume that the server runs DDL inside a transaction, so that a rollback also undoes a `create table` or `drop table` body. PostgreSQL and SQLite do. MySQL commits such a statement implicitly at once, and the model does not capture that.
- Cmd.Init: dispatches `rollback` in the corrected order, configSql before Begin. The order as written is `Cmd.RollbackAsWritten`, and `Cmd.RollbackNeverReverts` compares the two.
- Settings.Atoi: models Go's `int` as 64 bits wide. The 32-bit bounds are not modelled.

## Findings

| source | as written | input that shows it | evidently intended | confidence | as-written member | corrected member |
|---|---|---|---|---|---|---|
| pkg/cmd.go:131 | `addMigration(db, name, i)` commits each ledger row at once, outside the transaction that `Transact` rolls back | empty ledger, files `a` and `b`, the server refuses the body of `b`: the body of `a` is rolled back but its row stays | ledger writes on the transaction, as in cmd/cmd.go:139, so that a rollback also restores the ledger | high, not executed | Pkg.UpLedgerAhead | Pkg.UpKeepsConsistent |
| pkg/cmd.go:155 | `removeMigration(db, i)` commits each ledger delete at once, outside the transaction that `Transact` rolls back (the same at pkg/cmd.go:184) | ledger `a` at 0 and `b` at 1, down bodies `DA` and `DB`, the server refuses `DA`: the body `DB` is rolled back but the delete of `b` stays, so the schema still holds `b` while the ledger no longer records it | ledger deletes on the transaction, as in cmd/cmd.go:164, so that a rollback also restores the ledger | high, not executed | Pkg.RevertLedgerBehind | Pkg.RevertKeepsInStep |
| cmd/cmd.go:178 | `db.Begin()` runs before `configSql()` has set the package variable `db`, so it is called on a nil handle and panics | `rollback` with any step count, on any ledger: Cmd.RollbackNeverReverts sets the run as written, which panics with every row in place, beside the corrected order, which removes rows and ends normally | configSql, createMigrationTable, then Begin, as in the `down` case (cmd/cmd.go:150-153) | high, not executed | Cmd.RollbackAsWritten | Cmd.RollbackClean |
