// cmd/cmd.go: Init.  The database handle is a package variable that configSql sets
// from DB_DRIVER and DB_QUERY; the ledger is created on that handle, then read and
// written on the transaction together with the migration bodies.  A refused
// statement rolls the transaction back and ends the process through log.Fatal; the
// error of the final Commit is dropped.

module Cmd {
  import opened Order
  import opened Script
  import opened Sql
  import opened Engine
  import opened Naming
  import opened Settings

  /** configSql succeeds: sql.Open knows the driver and the driver accepts the data
      source name (`dsnOk` stands for the driver's own parser of it). */
  predicate Configured(env: map<string, string>, dsnOk: (string, string) -> bool) {
    Registered(Driver(env)) && dsnOk(Driver(env), Dsn(env))
  }

  /** What has to go right before a walk starts: configSql, createMigrationTable on the
      database handle, db.Begin (a refused Begin leaves a nil transaction, and the
      ledger query on it panics) and retrieveMigratedList on the fresh transaction. */
  predicate Ready(v: Verdict, env: map<string, string>, dsnOk: (string, string) -> bool, st: Store) {
    Configured(env, dsnOk) && Admits(v, st, CreateLedger) && v(st, Opening) && v(st, Reading)
  }

  /** The end of a walk: a refused statement rolls back and ends in log.Fatal, a missing
      file ends in log.Fatal inside readFile, and a finished walk commits, the process
      ending normally whether or not the server accepts the Commit. */
  function Settle(v: Verdict, r: Walk): (o: Outcome)
    ensures o.fatal <==> r.stop != Finished
    ensures o.store == if !o.fatal && v(r.conn.store, Committing) then View(r.conn) else r.conn.store
  {
    if r.stop != Finished then Outcome(r.conn.store, true)
    else if v(r.conn.store, Committing) then Outcome(View(r.conn), false)
    else Outcome(r.conn.store, false)
  }

  /** The `up` case of Init. */
  function UpRun(v: Verdict, env: map<string, string>, dsnOk: (string, string) -> bool, st: Store,
                 entries: Option<seq<Entry>>, files: map<string, Sections>): (o: Outcome)
    ensures !Ready(v, env, dsnOk, st) || entries.None? ==> o == Outcome(st, true)
  {
    if !Ready(v, env, dsnOk, st) || entries.None? then Outcome(st, true)
    else
      var saved := Retrieve(st.rows);
      var names := SortStrings(Files(entries.value));
      Settle(v, UpFrom(v, ViaTx, names, saved, files, 0, Conn(st, [])))
  }

  /** The `down` case of Init (steps None), and the `rollback` case (steps Some) with its
      statements in the order of the `down` case. */
  function RevertRun(v: Verdict, env: map<string, string>, dsnOk: (string, string) -> bool, st: Store,
                     files: map<string, Sections>, steps: Option<int>): (o: Outcome)
    ensures !Ready(v, env, dsnOk, st) ==> o == Outcome(st, true)
  {
    if !Ready(v, env, dsnOk, st) then Outcome(st, true)
    else
      var saved := Retrieve(st.rows);
      Settle(v, RevertFrom(v, ViaTx, saved, files, |saved| - 1, 0, steps, Conn(st, [])))
  }

  /** The `rollback` case of Init as its statements stand: db.Begin runs before configSql
      has set the package handle, so it is called on a nil *sql.DB and panics; nothing
      reaches the server. */
  function RollbackAsWritten(st: Store): Outcome {
    Outcome(st, true)
  }

  // ---------------------------------------------------------------------
  // What the cases promise

  /** A refused statement or a missing file leaves the database as it was: the walk runs
      entirely on the transaction, which is never committed. */
  lemma UpAtomic(v: Verdict, env: map<string, string>, dsnOk: (string, string) -> bool, st: Store,
                 entries: Option<seq<Entry>>, files: map<string, Sections>)
    ensures var o := UpRun(v, env, dsnOk, st, entries, files);
            o.fatal ==> o.store == st
  {
    if Ready(v, env, dsnOk, st) && entries.Some? {
      var names := SortStrings(Files(entries.value));
      var saved := Retrieve(st.rows);
      var t := UpTraced(v, ViaTx, names, saved, files, 0, Conn(st, []));
      var r := UpFrom(v, ViaTx, names, saved, files, 0, Conn(st, []));
      assert r.conn.store == st;
      assert UpRun(v, env, dsnOk, st, entries, files) == Settle(v, r);
    }
  }

  /** The same for down and rollback. */
  lemma RevertAtomic(v: Verdict, env: map<string, string>, dsnOk: (string, string) -> bool, st: Store,
                     files: map<string, Sections>, steps: Option<int>)
    ensures var o := RevertRun(v, env, dsnOk, st, files, steps);
            o.fatal ==> o.store == st
  {
    if Ready(v, env, dsnOk, st) {
      var saved := Retrieve(st.rows);
      RevertRoute(v, ViaTx, saved, files, |saved| - 1, 0, steps, Conn(st, []));
      var r := RevertFrom(v, ViaTx, saved, files, |saved| - 1, 0, steps, Conn(st, []));
      assert RevertRun(v, env, dsnOk, st, files, steps) == Settle(v, r);
    }
  }

  /** Against a server that refuses nothing, up over a ledger that records the first m
      sorted names records every name at its position and runs the up bodies of the others. */
  lemma UpFresh(v: Verdict, env: map<string, string>, dsnOk: (string, string) -> bool, st: Store,
                entries: seq<Entry>, files: map<string, Sections>, m: nat)
    requires Permissive(v) && Configured(env, dsnOk)
    requires Distinct(SortStrings(Files(entries))) && m <= |SortStrings(Files(entries))|
    requires forall n | n in Files(entries) :: n in files
    requires st.rows == Contig(SortStrings(Files(entries))[..m])
    ensures var names := SortStrings(Files(entries));
            UpRun(v, env, dsnOk, st, Some(entries), files)
            == Outcome(Store(Contig(names), st.applied + Bodies(files, names[m..], Up)), false)
  {
    var names := SortStrings(Files(entries));
    RetrieveContig(names[..m]);
    forall j | 0 <= j < |names| ensures names[j] in files {
      assert names[j] in multiset(Files(entries));
    }
    UpRunReady(v, env, dsnOk, st, entries, files);
    UpClean(v, ViaTx, names, files, m, st);
    SettleFinished(v, UpFrom(v, ViaTx, names, names[..m], files, 0, Conn(st, [])));
  }

  /** Once the server lets it start, the up case ends as its walk over the sorted files does. */
  lemma UpRunReady(v: Verdict, env: map<string, string>, dsnOk: (string, string) -> bool, st: Store,
                   entries: seq<Entry>, files: map<string, Sections>)
    requires Permissive(v) && Configured(env, dsnOk)
    ensures UpRun(v, env, dsnOk, st, Some(entries), files)
            == Settle(v, UpFrom(v, ViaTx, SortStrings(Files(entries)), Retrieve(st.rows), files, 0, Conn(st, [])))
  {
    assert Ready(v, env, dsnOk, st);
  }

  /** Running up again over the ledger it produced changes nothing, whatever the server
      answers, and ends normally once the server lets it start. */
  lemma UpAgain(v: Verdict, env: map<string, string>, dsnOk: (string, string) -> bool, st: Store,
                entries: seq<Entry>, files: map<string, Sections>)
    requires Retrieve(st.rows) == SortStrings(Files(entries))
    ensures UpRun(v, env, dsnOk, st, Some(entries), files).store == st
    ensures Ready(v, env, dsnOk, st) ==> !UpRun(v, env, dsnOk, st, Some(entries), files).fatal
  {
    var names := SortStrings(Files(entries));
    UpSynced(v, ViaTx, names, files, 0, Conn(st, []));
    assert View(Conn(st, [])) == st;
  }

  /** Against a server that refuses nothing, a revert over a clean ledger of n rows undoes
      the top t of them, highest first, t being what the step count allows. */
  lemma RevertRunClean(v: Verdict, env: map<string, string>, dsnOk: (string, string) -> bool, st: Store,
                       saved: seq<string>, files: map<string, Sections>, steps: Option<int>)
    requires Permissive(v) && Configured(env, dsnOk) && forall n | n in saved :: n in files
    requires st.rows == Contig(saved)
    ensures var t := Budget(steps, 0, |saved|);
            RevertRun(v, env, dsnOk, st, files, steps)
            == Outcome(Store(Contig(saved[..|saved| - t]), st.applied + Bodies(files, Reverse(saved[|saved| - t..]), Down)), false)
  {
    RetrieveContig(saved);
    RevertRunReady(v, env, dsnOk, st, files, steps);
    RevertClean(v, ViaTx, saved, files, steps, st);
    SettleFinished(v, RevertFrom(v, ViaTx, saved, files, |saved| - 1, 0, steps, Conn(st, [])));
  }

  /** Once the server lets it start, a revert case ends as its walk from the top does. */
  lemma RevertRunReady(v: Verdict, env: map<string, string>, dsnOk: (string, string) -> bool, st: Store,
                       files: map<string, Sections>, steps: Option<int>)
    requires Permissive(v) && Configured(env, dsnOk)
    ensures var saved := Retrieve(st.rows);
            RevertRun(v, env, dsnOk, st, files, steps)
            == Settle(v, RevertFrom(v, ViaTx, saved, files, |saved| - 1, 0, steps, Conn(st, [])))
  {
    assert Ready(v, env, dsnOk, st);
  }

  /** A finished walk on a server that refuses nothing commits the transaction's view. */
  lemma SettleFinished(v: Verdict, r: Walk)
    requires Permissive(v) && r.stop == Finished
    ensures Settle(v, r) == Outcome(View(r.conn), false)
  {
    assert v(r.conn.store, Committing);
  }

  /** Against a server that refuses nothing, down over a clean ledger runs every down
      body, highest position first, and leaves the ledger empty. */
  lemma DownClean(v: Verdict, env: map<string, string>, dsnOk: (string, string) -> bool, st: Store,
                  saved: seq<string>, files: map<string, Sections>)
    requires Permissive(v) && Configured(env, dsnOk) && forall n | n in saved :: n in files
    requires st.rows == Contig(saved)
    ensures RevertRun(v, env, dsnOk, st, files, None)
            == Outcome(Store([], st.applied + Bodies(files, Reverse(saved), Down)), false)
  {
    RevertRunClean(v, env, dsnOk, st, saved, files, None);
    assert saved[0..] == saved && saved[..0] == [];
  }

  /** Against a server that refuses nothing, rollback (in the order of down) over a clean
      ledger of n rows undoes the top min(steps, n), and all of them when steps <= 0. */
  lemma RollbackClean(v: Verdict, env: map<string, string>, dsnOk: (string, string) -> bool, st: Store,
                      saved: seq<string>, files: map<string, Sections>, steps: int)
    requires Permissive(v) && Configured(env, dsnOk) && forall n | n in saved :: n in files
    requires st.rows == Contig(saved)
    ensures var t := if 1 <= steps <= |saved| then steps else |saved|;
            RevertRun(v, env, dsnOk, st, files, Some(steps))
            == Outcome(Store(Contig(saved[..|saved| - t]), st.applied + Bodies(files, Reverse(saved[|saved| - t..]), Down)), false)
  {
    assert Budget(Some(steps), 0, |saved|) == if 1 <= steps <= |saved| then steps else |saved|;
    RevertRunClean(v, env, dsnOk, st, saved, files, Some(steps));
  }

  /** As written, rollback never undoes anything: on a non-empty clean ledger and a server
      that refuses nothing, the rollback in the order of down removes the top row, while
      the statements as they stand end in a panic with every row still there. */
  lemma RollbackNeverReverts(v: Verdict, env: map<string, string>, dsnOk: (string, string) -> bool, st: Store,
                             saved: seq<string>, files: map<string, Sections>, steps: int)
    requires Permissive(v) && Configured(env, dsnOk) && forall n | n in saved :: n in files
    requires st.rows == Contig(saved) && saved != []
    ensures RollbackAsWritten(st) == Outcome(st, true)
    ensures |RevertRun(v, env, dsnOk, st, files, Some(steps)).store.rows| < |st.rows|
    ensures !RevertRun(v, env, dsnOk, st, files, Some(steps)).fatal
  {
    RollbackClean(v, env, dsnOk, st, saved, files, steps);
  }

  /** Whatever the server answers, up never leaves the ledger and the schema out of step. */
  lemma UpKeepsConsistent(v: Verdict, env: map<string, string>, dsnOk: (string, string) -> bool, st: Store,
                          entries: Option<seq<Entry>>, files: map<string, Sections>)
    requires Consistent(st, files)
    ensures Consistent(UpRun(v, env, dsnOk, st, entries, files).store, files)
  {
    if Ready(v, env, dsnOk, st) && entries.Some? {
      var names := SortStrings(Files(entries.value));
      var r := UpFrom(v, ViaTx, names, Retrieve(st.rows), files, 0, Conn(st, []));
      UpTxConsistent(v, names, Retrieve(st.rows), files, st);
      assert UpRun(v, env, dsnOk, st, entries, files) == Settle(v, r);
    }
  }

  // ---------------------------------------------------------------------
  // The cases on the connection handles

  /** configSql, createMigrationTable, db.Begin and retrieveMigratedList on the
      transaction; null when one of them fails, after which the process has ended. */
  method Prepare(db: Database, env: map<string, string>, dsnOk: (string, string) -> bool)
    returns (tx: Tx?, saved: seq<string>)
    modifies db
    ensures db.store == old(db.store)
    ensures tx != null <==> Ready(db.verdict, env, dsnOk, db.store)
    ensures tx != null ==> fresh(tx) && tx.db == db && tx.open && tx.pending == [] && saved == Retrieve(db.store.rows)
  {
    saved := [];
    if !Configured(env, dsnOk) {
      return null, [];
    }
    var ok := db.Exec(CreateLedger);
    if !ok {
      return null, [];
    }
    tx := db.Begin();
    if tx == null {
      return;
    }
    assert tx.View() == db.store;
    var listed := tx.Query();
    if listed.None? {
      return null, [];
    }
    saved := listed.value;
  }

  /** After the loop: a missing file has already ended the process inside readFile; a
      refused statement rolls back and ends in log.Fatal; otherwise Commit, its error dropped. */
  method Close(tx: Tx, stop: Stop) returns (fatal: bool)
    requires tx.open
    modifies tx, tx.db
    ensures Outcome(tx.db.store, fatal) == Settle(tx.db.verdict, Walk(Conn(old(tx.db.store), old(tx.pending)), stop))
  {
    if stop.Unreadable? {
      return true;
    }
    if stop != Finished {
      var _ := tx.Rollback();
      return true;
    }
    var _ := tx.Commit();
    fatal := false;
  }

  /** The `up` case of Init. */
  method UpCase(db: Database, env: map<string, string>, dsnOk: (string, string) -> bool,
                entries: Option<seq<Entry>>, contents: map<string, seq<string>>)
    returns (fatal: bool)
    modifies db
    ensures Outcome(db.store, fatal) == UpRun(db.verdict, env, dsnOk, old(db.store), entries, ParseAll(contents))
  {
    var tx, saved := Prepare(db, env, dsnOk);
    if tx == null {
      return true;
    }
    if entries.None? {
      return true;
    }
    var names := ListNames(entries.value);
    var stop := UpLoop(ViaTx, db, tx, names, saved, contents);
    fatal := Close(tx, stop);
  }

  /** The `down` case of Init (steps None) and the `rollback` case (steps Some), in the
      order of `down`. */
  method RevertCase(db: Database, env: map<string, string>, dsnOk: (string, string) -> bool,
                    contents: map<string, seq<string>>, steps: Option<int>)
    returns (fatal: bool)
    modifies db
    ensures Outcome(db.store, fatal) == RevertRun(db.verdict, env, dsnOk, old(db.store), ParseAll(contents), steps)
  {
    var tx, saved := Prepare(db, env, dsnOk);
    if tx == null {
      return true;
    }
    var stop := RevertLoop(ViaTx, db, tx, saved, contents, steps);
    fatal := Close(tx, stop);
  }

  /** Init: the action and its argument come from the positional arguments. */
  method Init(db: Database, env: map<string, string>, dsnOk: (string, string) -> bool,
              path: string, stamp: string, args: seq<string>,
              entries: Option<seq<Entry>>, contents: map<string, seq<string>>)
    returns (written: Option<(string, string)>, fatal: bool)
    modifies db
    ensures Action(args) == "create" ==> written == Some(Create(path, stamp, Arg(args, 1))) && !fatal && db.store == old(db.store)
    ensures Action(args) != "create" ==> written == None
    ensures Action(args) == "up" ==> Outcome(db.store, fatal) == UpRun(db.verdict, env, dsnOk, old(db.store), entries, ParseAll(contents))
    ensures Action(args) == "down" ==> Outcome(db.store, fatal) == RevertRun(db.verdict, env, dsnOk, old(db.store), ParseAll(contents), None)
    ensures Action(args) == "rollback"
            ==> Outcome(db.store, fatal) == RevertRun(db.verdict, env, dsnOk, old(db.store), ParseAll(contents), Some(Steps(args)))
    ensures Action(args) !in {"create", "up", "down", "rollback"} ==> !fatal && db.store == old(db.store)
  {
    written, fatal := None, false;
    var action := Action(args);
    if action == "create" {
      written := Some(Create(path, stamp, Arg(args, 1)));
    } else if action == "up" {
      fatal := UpCase(db, env, dsnOk, entries, contents);
    } else if action == "down" {
      fatal := RevertCase(db, env, dsnOk, contents, None);
    } else if action == "rollback" {
      fatal := RevertCase(db, env, dsnOk, contents, Some(Steps(args)));
    }
  }
}
