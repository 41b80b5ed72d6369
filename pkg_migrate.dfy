// pkg/cmd.go: Migrate and Transact.  Every branch that touches the database runs
// inside Transact: db.Begin, the callback, then Commit when the callback returned
// nil and Rollback otherwise.  The ledger is created, read and written through the
// *sql.DB (Route ViaDb); only the migration bodies run on the *sql.Tx.  The
// functions take the route as a parameter so that the same branch can also be
// stated with the ledger on the transaction (ViaTx), the behaviour the wrapper is
// evidently there to give.

module Pkg {
  import opened Order
  import opened Script
  import opened Sql
  import opened Engine
  import opened Naming
  import opened Settings

  /** The end of Transact for a callback walk: an accepted Commit makes the pending
      statements durable; a refused Commit, a refused statement (Rollback), a missing
      file (log.Fatal inside readFile) leave only what was committed on the database
      handle, and the process then exits through log.Fatal. */
  function Settle(v: Verdict, r: Walk): (o: Outcome)
    ensures o.fatal <==> r.stop != Finished || !v(r.conn.store, Committing)
    ensures o.store == if o.fatal then r.conn.store else View(r.conn)
  {
    if r.stop == Finished && v(r.conn.store, Committing) then Outcome(View(r.conn), false)
    else Outcome(r.conn.store, true)
  }

  /** What has to go right before a walk starts: Begin, createMigrationTable and
      retrieveMigratedList, each on the database handle. */
  predicate Opened(v: Verdict, st: Store) {
    v(st, Opening) && Admits(v, st, CreateLedger) && v(st, Reading)
  }

  /** The `up` branch: Transact around createMigrationTable, retrieveMigratedList,
      the directory listing and the up walk over the sorted file names. */
  function UpRun(v: Verdict, route: Route, st: Store, entries: Option<seq<Entry>>,
                 files: map<string, Sections>): (o: Outcome)
    ensures !Opened(v, st) || entries.None? ==> o == Outcome(st, true)
  {
    if !Opened(v, st) || entries.None? then Outcome(st, true)
    else
      var saved := Retrieve(st.rows);
      var names := SortStrings(Files(entries.value));
      Settle(v, UpFrom(v, route, names, saved, files, 0, Conn(st, [])))
  }

  /** The `down` branch (steps None) and the `rollback` branch (steps Some). */
  function RevertRun(v: Verdict, route: Route, st: Store, files: map<string, Sections>,
                     steps: Option<int>): (o: Outcome)
    ensures !Opened(v, st) ==> o == Outcome(st, true)
  {
    if !Opened(v, st) then Outcome(st, true)
    else
      var saved := Retrieve(st.rows);
      Settle(v, RevertFrom(v, route, saved, files, |saved| - 1, 0, steps, Conn(st, [])))
  }

  // ---------------------------------------------------------------------
  // What the branches promise

  /** Against a server that refuses nothing, up over a ledger that records the first m
      sorted names records every name at its position and runs the up bodies of the
      others, in order; on either route. */
  lemma UpFresh(v: Verdict, route: Route, st: Store, entries: seq<Entry>, files: map<string, Sections>, m: nat)
    requires Permissive(v)
    requires Distinct(SortStrings(Files(entries))) && m <= |SortStrings(Files(entries))|
    requires forall n | n in Files(entries) :: n in files
    requires st.rows == Contig(SortStrings(Files(entries))[..m])
    ensures var names := SortStrings(Files(entries));
            UpRun(v, route, st, Some(entries), files)
            == Outcome(Store(Contig(names), st.applied + Bodies(files, names[m..], Up)), false)
  {
    var names := SortStrings(Files(entries));
    RetrieveContig(names[..m]);
    forall j | 0 <= j < |names| ensures names[j] in files {
      assert names[j] in multiset(Files(entries));
    }
    UpRunOpened(v, route, st, entries, files);
    UpClean(v, route, names, files, m, st);
    SettleFinished(v, UpFrom(v, route, names, names[..m], files, 0, Conn(st, [])));
  }

  /** Once the server lets it start, the up branch ends as its walk over the sorted files does. */
  lemma UpRunOpened(v: Verdict, route: Route, st: Store, entries: seq<Entry>, files: map<string, Sections>)
    requires Permissive(v)
    ensures UpRun(v, route, st, Some(entries), files)
            == Settle(v, UpFrom(v, route, SortStrings(Files(entries)), Retrieve(st.rows), files, 0, Conn(st, [])))
  {
    assert Opened(v, st);
  }

  /** Running up again over the ledger it produced changes nothing, whatever the server answers. */
  lemma UpAgain(v: Verdict, route: Route, st: Store, entries: seq<Entry>, files: map<string, Sections>)
    requires Retrieve(st.rows) == SortStrings(Files(entries))
    ensures UpRun(v, route, st, Some(entries), files).store == st
  {
    var names := SortStrings(Files(entries));
    UpSynced(v, route, names, files, 0, Conn(st, []));
  }

  /** Against a server that refuses nothing, a revert branch over a clean ledger of n rows
      undoes the top t of them, highest first, t being what the step count allows. */
  lemma RevertRunClean(v: Verdict, route: Route, st: Store, saved: seq<string>, files: map<string, Sections>,
                       steps: Option<int>)
    requires Permissive(v) && forall n | n in saved :: n in files
    requires st.rows == Contig(saved)
    ensures var t := Budget(steps, 0, |saved|);
            RevertRun(v, route, st, files, steps)
            == Outcome(Store(Contig(saved[..|saved| - t]), st.applied + Bodies(files, Reverse(saved[|saved| - t..]), Down)), false)
  {
    RetrieveContig(saved);
    RevertRunOpened(v, route, st, files, steps);
    RevertClean(v, route, saved, files, steps, st);
    SettleFinished(v, RevertFrom(v, route, saved, files, |saved| - 1, 0, steps, Conn(st, [])));
  }

  /** Once the server lets it start, a revert branch ends as its walk from the top does. */
  lemma RevertRunOpened(v: Verdict, route: Route, st: Store, files: map<string, Sections>, steps: Option<int>)
    requires Permissive(v)
    ensures var saved := Retrieve(st.rows);
            RevertRun(v, route, st, files, steps)
            == Settle(v, RevertFrom(v, route, saved, files, |saved| - 1, 0, steps, Conn(st, [])))
  {
    assert Opened(v, st);
  }

  /** A finished walk on a server that refuses nothing commits the transaction's view. */
  lemma SettleFinished(v: Verdict, r: Walk)
    requires Permissive(v) && r.stop == Finished
    ensures Settle(v, r) == Outcome(View(r.conn), false)
  {
    assert v(r.conn.store, Committing);
  }

  /** Against a server that refuses nothing, down over a clean ledger runs every down
      body, highest position first, and leaves the ledger empty. */
  lemma DownClean(v: Verdict, route: Route, st: Store, saved: seq<string>, files: map<string, Sections>)
    requires Permissive(v) && forall n | n in saved :: n in files
    requires st.rows == Contig(saved)
    ensures RevertRun(v, route, st, files, None)
            == Outcome(Store([], st.applied + Bodies(files, Reverse(saved), Down)), false)
  {
    RevertRunClean(v, route, st, saved, files, None);
    assert saved[0..] == saved && saved[..0] == [];
  }

  /** Against a server that refuses nothing, rollback over a clean ledger of n rows undoes
      the top min(steps, n) of them, highest first, and all of them when steps <= 0. */
  lemma RollbackClean(v: Verdict, route: Route, st: Store, saved: seq<string>, files: map<string, Sections>, steps: int)
    requires Permissive(v) && forall n | n in saved :: n in files
    requires st.rows == Contig(saved)
    ensures var t := if 1 <= steps <= |saved| then steps else |saved|;
            RevertRun(v, route, st, files, Some(steps))
            == Outcome(Store(Contig(saved[..|saved| - t]), st.applied + Bodies(files, Reverse(saved[|saved| - t..]), Down)), false)
  {
    assert Budget(Some(steps), 0, |saved|) == if 1 <= steps <= |saved| then steps else |saved|;
    RevertRunClean(v, route, st, saved, files, Some(steps));
  }

  // ---------------------------------------------------------------------
  // The ledger on the database handle outlives the rollback

  const OnlyB: Verdict := (st: Store, q: Request) => q != Run(Exec("B"))
  const TwoFiles: seq<Entry> := [Entry("a", false), Entry("b", false)]
  const TwoBodies: map<string, Sections> := map["a" := Sections("A", ""), "b" := Sections("B", "")]

  /** The two files of the example, sorted. */
  lemma TwoFilesSorted()
    ensures SortStrings(Files(TwoFiles)) == ["a", "b"]
  {
    assert TwoFiles[..1] == [Entry("a", false)];
    assert Files(TwoFiles[..1]) == ["a"];
    assert Files(TwoFiles) == ["a", "b"];
    assert Below("a", "b");
    SortSorted(["a", "b"]);
  }

  /** The first file goes through: its body joins the transaction, its row is committed. */
  lemma TwoFirstStep()
    ensures UpFrom(OnlyB, ViaDb, ["a", "b"], [], TwoBodies, 0, Conn(Store([], []), []))
            == UpFrom(OnlyB, ViaDb, ["a", "b"], [], TwoBodies, 1, Conn(Store([Row("a", 0)], []), [Exec("A")]))
  {
    var c := Conn(Store([], []), []);
    assert View(c) == Store([], []);
    assert "A"[0] != "B"[0];
    assert OnlyB(View(c), Run(Exec("A")));
    assert OnlyB(c.store, Run(Insert(Row("a", 0))));
    assert Admits(OnlyB, View(c), Exec("A"));
    assert c.pending + [Exec("A")] == [Exec("A")];
    assert InTx(OnlyB, c, Exec("A")) == Some(Conn(Store([], []), [Exec("A")]));
    assert !Recorded([], "a");
  }

  /** The body of the second file is refused. */
  lemma TwoSecondStep()
    ensures UpFrom(OnlyB, ViaDb, ["a", "b"], [], TwoBodies, 1, Conn(Store([Row("a", 0)], []), [Exec("A")]))
            == Walk(Conn(Store([Row("a", 0)], []), [Exec("A")]), Refused(Exec("B")))
  {
    var c := Conn(Store([Row("a", 0)], []), [Exec("A")]);
    assert !OnlyB(View(c), Run(Exec("B")));
  }

  /** As written: when the body of the second file is refused, Transact rolls the body of
      the first one back, but its ledger row, written through the database handle, stays;
      the ledger then claims a migration whose body never ran. */
  lemma UpLedgerAhead()
    ensures Consistent(Store([], []), TwoBodies)
    ensures UpRun(OnlyB, ViaDb, Store([], []), Some(TwoFiles), TwoBodies) == Outcome(Store([Row("a", 0)], []), true)
    ensures !Consistent(Store([Row("a", 0)], []), TwoBodies)
  {
    var st := Store([], []);
    TwoFilesSorted();
    assert Retrieve([]) == [];
    assert Opened(OnlyB, st);
    TwoFirstStep();
    TwoSecondStep();
    var c1 := Conn(Store([Row("a", 0)], []), [Exec("A")]);
    assert UpRun(OnlyB, ViaDb, st, Some(TwoFiles), TwoBodies) == Settle(OnlyB, Walk(c1, Refused(Exec("B"))));
    assert Bodies(TwoBodies, NamesOf([Row("a", 0)]), Up) == ["A"];
  }

  /** Corrected: with the ledger written on the transaction, whatever the server answers,
      up never leaves the ledger and the schema out of step. */
  lemma UpKeepsConsistent(v: Verdict, st: Store, entries: Option<seq<Entry>>, files: map<string, Sections>)
    requires Consistent(st, files)
    ensures Consistent(UpRun(v, ViaTx, st, entries, files).store, files)
  {
    if Opened(v, st) && entries.Some? {
      UpTxConsistent(v, SortStrings(Files(entries.value)), Retrieve(st.rows), files, st);
    }
  }

  // ---------------------------------------------------------------------
  // The ledger on the database handle runs ahead of a rolled-back revert

  /** The state once the top `t` of the recorded names are undone: their rows deleted
      and their down bodies run, highest position first. */
  function Undone(st: Store, saved: seq<string>, files: map<string, Sections>, t: nat): Store
    requires t <= |saved|
  {
    Store(Outside(st.rows, |saved| - 1 - t, |saved| - 1),
          st.applied + Bodies(files, Reverse(saved[|saved| - t..]), Down))
  }

  /** `after` is `before` with some top part of the ledger undone, rows and bodies together. */
  predicate InStep(before: Store, after: Store, saved: seq<string>, files: map<string, Sections>) {
    after == before || exists t | 0 <= t <= |saved| :: after == Undone(before, saved, files, t)
  }

  const OnlyDA: Verdict := (st: Store, q: Request) => q != Run(Exec("DA"))
  const TwoDowns: map<string, Sections> := map["a" := Sections("A", "DA"), "b" := Sections("B", "DB")]
  const TwoApplied: Store := Store([Row("a", 0), Row("b", 1)], ["A", "B"])

  /** The example's ledger records `a` and then `b`. */
  lemma TwoAppliedLedger()
    ensures Retrieve(TwoApplied.rows) == ["a", "b"]
  {
    assert Contig(["a", "b"]) == TwoApplied.rows;
    RetrieveContig(["a", "b"]);
  }

  /** The first revert step goes through: the body of `b` joins the transaction and
      its row is deleted for good. */
  lemma DownFirstStep(steps: Option<int>)
    requires steps != Some(1)
    ensures RevertFrom(OnlyDA, ViaDb, ["a", "b"], TwoDowns, 1, 0, steps, Conn(TwoApplied, []))
            == RevertFrom(OnlyDA, ViaDb, ["a", "b"], TwoDowns, 0, 1, steps, Conn(Store([Row("a", 0)], ["A", "B"]), [Exec("DB")]))
  {
    var c := Conn(TwoApplied, []);
    DownFirstAdmitted();
    var c2 := RevertAdvance(OnlyDA, ViaDb, ["a", "b"], TwoDowns, 1, 0, steps, c);
    TwoWithout();
    assert c2 == Conn(Store([Row("a", 0)], ["A", "B"]), [] + [Exec("DB")]);
  }

  lemma DownFirstAdmitted()
    ensures !RevertBlocked(OnlyDA, ViaDb, ["a", "b"], TwoDowns, 1, Conn(TwoApplied, []))
  {
    var c := Conn(TwoApplied, []);
    assert View(c) == TwoApplied;
    assert "DB"[1] != "DA"[1];
    assert OnlyDA(TwoApplied, Run(Exec("DB"))) && OnlyDA(TwoApplied, Run(Delete(1)));
    assert c.pending + [Exec("DB")] == [Exec("DB")];
    assert InTx(OnlyDA, c, Exec("DB")) == Some(Conn(TwoApplied, [Exec("DB")]));
  }

  lemma TwoWithout()
    ensures Without(TwoApplied.rows, 1) == [Row("a", 0)]
  {
    var rows := TwoApplied.rows;
    assert rows[..1] == [Row("a", 0)] && [Row("a", 0)][..0] == [];
  }

  /** The second revert step is refused at the body of `a`. */
  lemma DownSecondStep(steps: Option<int>)
    ensures RevertFrom(OnlyDA, ViaDb, ["a", "b"], TwoDowns, 0, 1, steps, Conn(Store([Row("a", 0)], ["A", "B"]), [Exec("DB")]))
            == Walk(Conn(Store([Row("a", 0)], ["A", "B"]), [Exec("DB")]), Refused(Exec("DA")))
  {
    var c := Conn(Store([Row("a", 0)], ["A", "B"]), [Exec("DB")]);
    assert !OnlyDA(View(c), Run(Exec("DA")));
  }

  /** As written: when the body of the lower migration is refused, Transact rolls the
      body of the upper one back, but the deletion of its ledger row, made through the
      database handle, stays; the ledger then omits a migration whose body is still in
      place. This holds for down and for every rollback step count other than 1. */
  lemma RevertLedgerBehind(steps: Option<int>)
    requires steps != Some(1)
    ensures Consistent(TwoApplied, TwoDowns)
    ensures RevertRun(OnlyDA, ViaDb, TwoApplied, TwoDowns, steps) == Outcome(Store([Row("a", 0)], ["A", "B"]), true)
    ensures !InStep(TwoApplied, Store([Row("a", 0)], ["A", "B"]), ["a", "b"], TwoDowns)
  {
    DownRefused(steps);
    LedgerBehindOutOfStep();
    assert NamesOf(TwoApplied.rows) == ["a", "b"];
    assert Bodies(TwoDowns, ["a", "b"], Up) == ["A", "B"];
  }

  /** The example's down or rollback stops at the refused body of `a`, after the row of
      `b` was deleted for good. */
  lemma DownRefused(steps: Option<int>)
    requires steps != Some(1)
    ensures RevertRun(OnlyDA, ViaDb, TwoApplied, TwoDowns, steps) == Outcome(Store([Row("a", 0)], ["A", "B"]), true)
  {
    TwoAppliedLedger();
    assert Opened(OnlyDA, TwoApplied);
    DownFirstStep(steps);
    DownSecondStep(steps);
    var c2 := Conn(Store([Row("a", 0)], ["A", "B"]), [Exec("DB")]);
    assert RevertRun(OnlyDA, ViaDb, TwoApplied, TwoDowns, steps) == Settle(OnlyDA, Walk(c2, Refused(Exec("DA"))));
  }

  /** The state the example leaves is no top part of its ledger undone. */
  lemma LedgerBehindOutOfStep()
    ensures !InStep(TwoApplied, Store([Row("a", 0)], ["A", "B"]), ["a", "b"], TwoDowns)
  {
    var saved := ["a", "b"];
    var after := Store([Row("a", 0)], ["A", "B"]);
    forall t | 0 <= t <= |saved|
      ensures after != Undone(TwoApplied, saved, TwoDowns, t)
    {
      if t == 0 {
        OutsideNone(TwoApplied.rows, 1);
      } else {
        ReverseSpec(saved[2 - t..]);
      }
    }
  }

  /** Corrected: with the ledger written on the transaction, whatever the server answers,
      down and rollback either leave the database as it was or undo a top part of the
      ledger with rows and down bodies together. */
  lemma RevertKeepsInStep(v: Verdict, st: Store, files: map<string, Sections>, steps: Option<int>)
    ensures InStep(st, RevertRun(v, ViaTx, st, files, steps).store, Retrieve(st.rows), files)
  {
    var t := RevertTxUndoes(v, st, files, steps);
  }

  /** On the tx route a revert branch commits nothing or the undoing of its top `t` positions. */
  lemma RevertTxUndoes(v: Verdict, st: Store, files: map<string, Sections>, steps: Option<int>) returns (t: nat)
    ensures t <= |Retrieve(st.rows)|
    ensures var after := RevertRun(v, ViaTx, st, files, steps).store;
            after == st || after == Undone(st, Retrieve(st.rows), files, t)
  {
    t := 0;
    if Opened(v, st) {
      var saved := Retrieve(st.rows);
      t := SettleTx(v, saved, files, steps, st);
      assert RevertRun(v, ViaTx, st, files, steps)
             == Settle(v, RevertFrom(v, ViaTx, saved, files, |saved| - 1, 0, steps, Conn(st, [])));
    }
  }

  lemma SettleTx(v: Verdict, saved: seq<string>, files: map<string, Sections>, steps: Option<int>, st: Store)
    returns (t: nat)
    ensures t <= |saved|
    ensures var after := Settle(v, RevertFrom(v, ViaTx, saved, files, |saved| - 1, 0, steps, Conn(st, []))).store;
            after == st || after == Undone(st, saved, files, t)
  {
    t := RevertTxWalk(v, saved, files, steps, st);
  }

  // ---------------------------------------------------------------------
  // The branches on the connection handles

  /** Transact's deferred function: Commit when the callback returned nil (and report
      the Commit error), Rollback when it returned an error. */
  method Finish(tx: Tx, failed: bool) returns (err: bool)
    requires tx.open
    modifies tx, tx.db
    ensures err == (failed || !tx.db.verdict(old(tx.db.store), Committing))
    ensures tx.db.store == if err then old(tx.db.store) else ApplyAll(old(tx.db.store), old(tx.pending))
    ensures !tx.open
  {
    if failed {
      var _ := tx.Rollback();
      err := true;
    } else {
      var ok := tx.Commit();
      err := !ok;
    }
  }

  /** db.Begin, then createMigrationTable and retrieveMigratedList on the database handle;
      null when one of them is refused, after which the process ends through log.Fatal. */
  method Prepare(db: Database) returns (tx: Tx?, saved: seq<string>)
    modifies db
    ensures db.store == old(db.store)
    ensures tx != null <==> Opened(db.verdict, db.store)
    ensures tx != null ==> fresh(tx) && tx.db == db && tx.open && tx.pending == [] && saved == Retrieve(db.store.rows)
  {
    saved := [];
    tx := db.Begin();
    if tx == null {
      return;
    }
    var ok := db.Exec(CreateLedger);
    if !ok {
      return null, [];
    }
    var listed := db.Query();
    if listed.None? {
      return null, [];
    }
    saved := listed.value;
  }

  /** The `up` case of Migrate on a database whose committed state and answers are `db`'s;
      `entries` is what ReadDir lists (None when it fails), `contents` the lines of the
      files that can be opened. */
  method UpBranch(route: Route, db: Database, entries: Option<seq<Entry>>, contents: map<string, seq<string>>)
    returns (fatal: bool)
    modifies db
    ensures Outcome(db.store, fatal) == UpRun(db.verdict, route, old(db.store), entries, ParseAll(contents))
  {
    var tx, saved := Prepare(db);
    if tx == null {
      return true;
    }
    if entries.None? {
      var _ := Finish(tx, true);
      return true;
    }
    var names := ListNames(entries.value);
    var stop := UpLoop(route, db, tx, names, saved, contents);
    fatal := Close(tx, stop);
  }

  /** The `down` (steps None) and `rollback` (steps Some) cases of Migrate. */
  method RevertBranch(route: Route, db: Database, contents: map<string, seq<string>>, steps: Option<int>)
    returns (fatal: bool)
    modifies db
    ensures Outcome(db.store, fatal) == RevertRun(db.verdict, route, old(db.store), ParseAll(contents), steps)
  {
    var tx, saved := Prepare(db);
    if tx == null {
      return true;
    }
    var stop := RevertLoop(route, db, tx, saved, contents, steps);
    fatal := Close(tx, stop);
  }

  /** After the callback: a missing file has already ended the process inside readFile;
      otherwise Finish, and log.Fatal on its error. */
  method Close(tx: Tx, stop: Stop) returns (fatal: bool)
    requires tx.open
    modifies tx, tx.db
    ensures Outcome(tx.db.store, fatal) == Settle(tx.db.verdict, Walk(Conn(old(tx.db.store), old(tx.pending)), stop))
  {
    if stop.Unreadable? {
      return true;
    }
    fatal := Finish(tx, stop != Finished);
  }

  /** Migrate: the action and its argument come from the positional arguments; `create`
      returns the file it writes, the other actions change the database. */
  method Migrate(route: Route, path: string, stamp: string, args: seq<string>, db: Database,
                 entries: Option<seq<Entry>>, contents: map<string, seq<string>>)
    returns (written: Option<(string, string)>, fatal: bool)
    modifies db
    ensures Action(args) == "create" ==> written == Some(Create(path, stamp, Arg(args, 1))) && !fatal && db.store == old(db.store)
    ensures Action(args) != "create" ==> written == None
    ensures Action(args) == "up" ==> Outcome(db.store, fatal) == UpRun(db.verdict, route, old(db.store), entries, ParseAll(contents))
    ensures Action(args) == "down" ==> Outcome(db.store, fatal) == RevertRun(db.verdict, route, old(db.store), ParseAll(contents), None)
    ensures Action(args) == "rollback"
            ==> Outcome(db.store, fatal) == RevertRun(db.verdict, route, old(db.store), ParseAll(contents), Some(Steps(args)))
    ensures Action(args) !in {"create", "up", "down", "rollback"} ==> !fatal && db.store == old(db.store)
  {
    written, fatal := None, false;
    var action := Action(args);
    if action == "create" {
      written := Some(Create(path, stamp, Arg(args, 1)));
    } else if action == "up" {
      fatal := UpBranch(route, db, entries, contents);
    } else if action == "down" {
      fatal := RevertBranch(route, db, contents, None);
    } else if action == "rollback" {
      fatal := RevertBranch(route, db, contents, Some(Steps(args)));
    }
  }
}
