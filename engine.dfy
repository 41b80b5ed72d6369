// The reconciliation walks shared by pkg/cmd.go and cmd/cmd.go: `up` over the
// sorted file names, `down` and `rollback` back over the recorded names.  The two
// copies differ only in the handle the ledger is read and written through, which
// is the `Route` parameter: pkg/cmd.go uses the *sql.DB, cmd/cmd.go the *sql.Tx.

module Engine {
  import opened Text
  import opened Order
  import opened Script
  import opened Sql

  // ---------------------------------------------------------------------
  // The migrations directory.

  /** One entry of ioutil.ReadDir. */
  datatype Entry = Entry(name: string, isDir: bool)

  /** The names of the entries that are not directories, in listing order. */
  function Files(entries: seq<Entry>): (r: seq<string>)
    ensures forall n :: n in r <==> exists k | 0 <= k < |entries| :: !entries[k].isDir && entries[k].name == n
  {
    if entries == [] then []
    else
      var init := Files(entries[..|entries| - 1]);
      var last := entries[|entries| - 1];
      assert forall k | 0 <= k < |entries| - 1 :: entries[..|entries| - 1][k] == entries[k];
      init + (if last.isDir then [] else [last.name])
  }

  /** The names `up` walks: the files of the directory, sorted. */
  method ListNames(entries: seq<Entry>) returns (names: seq<string>)
    ensures names == SortStrings(Files(entries))
    ensures Sorted(names) && multiset(names) == multiset(Files(entries))
  {
    var collected: seq<string> := [];
    for i := 0 to |entries|
      invariant collected == Files(entries[..i])
    {
      assert entries[..i + 1][..i] == entries[..i];
      if !entries[i].isDir {
        collected := collected + [entries[i].name];
      }
    }
    assert entries[..|entries|] == entries;
    names := SortStrings(collected);
  }

  /** The section `sec` of the file `name`; an unreadable file never reaches here. */
  function SectionText(files: map<string, Sections>, name: string, sec: Section): string {
    if name !in files then "" else if sec == Up then files[name].up else files[name].down
  }

  function Bodies(files: map<string, Sections>, names: seq<string>, sec: Section): (r: seq<string>)
    ensures |r| == |names| && forall k | 0 <= k < |names| :: r[k] == SectionText(files, names[k], sec)
  {
    seq(|names|, k requires 0 <= k < |names| => SectionText(files, names[k], sec))
  }

  // ---------------------------------------------------------------------
  // A walk in progress: the committed state and the open transaction's statements.

  datatype Route = ViaDb | ViaTx

  datatype Conn = Conn(store: Store, pending: seq<Stmt>)

  /** What the open transaction sees. */
  function View(c: Conn): Store {
    ApplyAll(c.store, c.pending)
  }

  /** A statement run on the transaction. */
  function InTx(v: Verdict, c: Conn, s: Stmt): Option<Conn> {
    if Admits(v, View(c), s) then Some(Conn(c.store, c.pending + [s])) else None
  }

  /** A statement run on the database handle, committed at once. */
  function OnDb(v: Verdict, c: Conn, s: Stmt): Option<Conn> {
    if Admits(v, c.store, s) then Some(Conn(Apply(c.store, s), c.pending)) else None
  }

  /** addMigration / removeMigration: a ledger statement on the route's handle. */
  function OnLedger(route: Route, v: Verdict, c: Conn, s: Stmt): Option<Conn> {
    if route == ViaTx then InTx(v, c, s) else OnDb(v, c, s)
  }

  /** The ledger rows the route's handle sees. */
  function LedgerRows(route: Route, c: Conn): seq<Row> {
    if route == ViaTx then View(c).rows else c.store.rows
  }

  /** How a walk ended: it went through, a statement was refused (the callback returns
      the error), a file could not be opened (log.Fatal), the directory could not be
      listed (an error), or the ledger could not be created or read (log.Fatal). */
  datatype Stop = Finished | Refused(stmt: Stmt) | Unreadable(name: string) | ListFailed | LedgerFailed

  datatype Walk = Walk(conn: Conn, stop: Stop)

  /** Whether the process ends through log.Fatal (or a panic) rather than normally. */
  datatype Outcome = Outcome(store: Store, fatal: bool)

  // ---------------------------------------------------------------------
  // up

  /** Position `j` of the walk is already recorded: the skip test of the up loop. */
  predicate Synced(names: seq<string>, saved: seq<string>, j: nat)
    requires j < |names|
  {
    j < |saved| && saved[j] == names[j]
  }

  /** The positions from `i` on that up will apply, in ascending order. */
  function Work(names: seq<string>, saved: seq<string>, i: nat): (r: seq<nat>)
    requires i <= |names|
    ensures InRange(r, |names|)
    decreases |names| - i
  {
    if i == |names| then []
    else (if Synced(names, saved, i) then [] else [i]) + Work(names, saved, i + 1)
  }

  /** The work from `i` on is every later position not yet recorded, each once, ascending. */
  lemma {:induction false} WorkSpec(names: seq<string>, saved: seq<string>, i: nat)
    requires i <= |names|
    ensures var w := Work(names, saved, i);
            && (forall j | i <= j < |names| :: j in w <==> !Synced(names, saved, j))
            && (forall k | 0 <= k < |w| :: i <= w[k])
            && (forall a, b | 0 <= a < b < |w| :: w[a] < w[b])
    decreases |names| - i
  {
    if i < |names| {
      WorkSpec(names, saved, i + 1);
      var rest := Work(names, saved, i + 1);
      var head := if Synced(names, saved, i) then [] else [i];
      assert Work(names, saved, i) == head + rest;
      AscendingCons(head, rest, i);
      forall j | i <= j < |names| ensures j in head + rest <==> !Synced(names, saved, j) {
        assert j in head + rest <==> j in head || j in rest;
      }
    }
  }

  /** Prefixing an ascending sequence above `i` with nothing or with `i` keeps it
      ascending, and everything in it is at least `i`. */
  lemma AscendingCons(head: seq<nat>, rest: seq<nat>, i: nat)
    requires head == [] || head == [i]
    requires forall k | 0 <= k < |rest| :: i + 1 <= rest[k]
    requires forall a, b | 0 <= a < b < |rest| :: rest[a] < rest[b]
    ensures var w := head + rest;
            && (forall k | 0 <= k < |w| :: i <= w[k])
            && (forall a, b | 0 <= a < b < |w| :: w[a] < w[b])
  {
    var w := head + rest;
    forall a, b | 0 <= a < b < |w| ensures w[a] < w[b] {
      if head != [] && a == 0 {
        assert w[b] == rest[b - 1];
      } else {
        assert w[a] == rest[a - |head|] && w[b] == rest[b - |head|];
      }
    }
  }

  /** The up walk from position `i` on. */
  function UpFrom(v: Verdict, route: Route, names: seq<string>, saved: seq<string>,
                  files: map<string, Sections>, i: nat, c: Conn): Walk
    requires i <= |names|
    decreases |names| - i
  {
    if i == |names| then Walk(c, Finished)
    else if Synced(names, saved, i) then UpFrom(v, route, names, saved, files, i + 1, c)
    else if names[i] !in files then Walk(c, Unreadable(names[i]))
    else
      var run := Exec(files[names[i]].up);
      match InTx(v, c, run)
      case None => Walk(c, Refused(run))
      case Some(c1) =>
        var add := Insert(Row(names[i], i));
        match OnLedger(route, v, c1, add)
        case None => Walk(c1, Refused(add))
        case Some(c2) => UpFrom(v, route, names, saved, files, i + 1, c2)
  }

  /** The statements the transaction collects for position `j` of a successful walk. */
  function UpStep(route: Route, names: seq<string>, files: map<string, Sections>, j: nat): seq<Stmt>
    requires j < |names|
  {
    var run := Exec(SectionText(files, names[j], Up));
    if route == ViaTx then [run, Insert(Row(names[j], j))] else [run]
  }

  predicate InRange(ws: seq<nat>, n: nat) {
    forall k | 0 <= k < |ws| :: ws[k] < n
  }

  function UpTrace(route: Route, names: seq<string>, files: map<string, Sections>, ws: seq<nat>): seq<Stmt>
    requires InRange(ws, |names|)
  {
    if ws == [] then []
    else UpStep(route, names, files, ws[0]) + UpTrace(route, names, files, ws[1..])
  }

  /** The ledger rows written for the positions `ws`. */
  function RowsAt(names: seq<string>, ws: seq<nat>): (r: seq<Row>)
    requires InRange(ws, |names|)
    ensures |r| == |ws| && forall k | 0 <= k < |ws| :: r[k] == Row(names[ws[k]], ws[k])
  {
    seq(|ws|, k requires 0 <= k < |ws| => Row(names[ws[k]], ws[k]))
  }

  function NamesAt(names: seq<string>, ws: seq<nat>): (r: seq<string>)
    requires InRange(ws, |names|)
    ensures |r| == |ws| && forall k | 0 <= k < |ws| :: r[k] == names[ws[k]]
  {
    seq(|ws|, k requires 0 <= k < |ws| => names[ws[k]])
  }

  /** How an up walk that got through `t` of its work positions `w` can have ended:
      at the end of the work, or at position w[t] and for one of that position's reasons. */
  predicate StopAt(names: seq<string>, files: map<string, Sections>, w: seq<nat>, t: nat, stop: Stop)
    requires InRange(w, |names|) && t <= |w|
  {
    && (stop == Finished <==> t == |w|)
    && (t < |w| ==>
          || (stop == Unreadable(names[w[t]]) && names[w[t]] !in files)
          || stop == Refused(Exec(SectionText(files, names[w[t]], Up)))
          || stop == Refused(Insert(Row(names[w[t]], w[t]))))
  }

  /** Where an up walk that got through `t` of its work positions `w` leaves the
      connection: the statements of those positions pending (and the body of w[t]
      when only its insert was refused), and on the db route their rows committed. */
  function Reached(route: Route, names: seq<string>, files: map<string, Sections>,
                   w: seq<nat>, t: nat, c: Conn, stop: Stop): Conn
    requires InRange(w, |names|) && t <= |w|
  {
    var extra := if t < |w| && stop == Refused(Insert(Row(names[w[t]], w[t])))
                 then [Exec(SectionText(files, names[w[t]], Up))] else [];
    Conn(if route == ViaTx then c.store else Store(c.store.rows + RowsAt(names, w[..t]), c.store.applied),
         c.pending + UpTrace(route, names, files, w[..t]) + extra)
  }

  predicate UpEffect(route: Route, names: seq<string>, files: map<string, Sections>,
                     w: seq<nat>, t: nat, c: Conn, r: Walk)
    requires InRange(w, |names|)
  {
    t <= |w| && StopAt(names, files, w, t, r.stop) && r.conn == Reached(route, names, files, w, t, c, r.stop)
  }

  /** Whatever the server answers, up goes through the work positions in order and
      stops at the first one that fails; on the tx route the committed state is
      untouched, on the db route every ledger insert is already committed. */
  lemma {:induction false} UpTraced(v: Verdict, route: Route, names: seq<string>, saved: seq<string>,
                                    files: map<string, Sections>, i: nat, c: Conn) returns (t: nat)
    requires i <= |names|
    ensures UpEffect(route, names, files, Work(names, saved, i), t, c, UpFrom(v, route, names, saved, files, i, c))
    decreases |names| - i
  {
    if i == |names| {
      t := 0;
      UpAtEnd(v, route, names, saved, files, c);
    } else if Synced(names, saved, i) {
      t := UpTraced(v, route, names, saved, files, i + 1, c);
      UpSkip(v, route, names, saved, files, i, c);
    } else if UpBlocked(v, route, names, files, i, c) {
      t := 0;
      UpFirstFails(v, route, names, saved, files, i, c);
    } else {
      var c2 := UpAdvance(v, route, names, saved, files, i, c);
      var t' := UpTraced(v, route, names, saved, files, i + 1, c2);
      UpStepCons(v, route, names, saved, files, i, t', c, c2);
      t := t' + 1;
    }
  }

  lemma UpAtEnd(v: Verdict, route: Route, names: seq<string>, saved: seq<string>,
                files: map<string, Sections>, c: Conn)
    ensures UpEffect(route, names, files, Work(names, saved, |names|), 0, c, UpFrom(v, route, names, saved, files, |names|, c))
  {
  }

  /** A recorded position is skipped: the work and the walk are those of the next one. */
  lemma UpSkip(v: Verdict, route: Route, names: seq<string>, saved: seq<string>,
               files: map<string, Sections>, i: nat, c: Conn)
    requires i < |names| && Synced(names, saved, i)
    ensures Work(names, saved, i) == Work(names, saved, i + 1)
    ensures UpFrom(v, route, names, saved, files, i, c) == UpFrom(v, route, names, saved, files, i + 1, c)
  {
  }

  /** Position `i` fails: its file is missing, or its body or its insert is refused. */
  predicate UpBlocked(v: Verdict, route: Route, names: seq<string>, files: map<string, Sections>, i: nat, c: Conn)
    requires i < |names|
  {
    names[i] !in files || InTx(v, c, Exec(files[names[i]].up)).None?
    || OnLedger(route, v, InTx(v, c, Exec(files[names[i]].up)).value, Insert(Row(names[i], i))).None?
  }

  /** Position `i` goes through: the walk continues from the next one with its statements added. */
  lemma UpAdvance(v: Verdict, route: Route, names: seq<string>, saved: seq<string>,
                  files: map<string, Sections>, i: nat, c: Conn) returns (c2: Conn)
    requires i < |names| && !Synced(names, saved, i) && !UpBlocked(v, route, names, files, i, c)
    ensures UpFrom(v, route, names, saved, files, i, c) == UpFrom(v, route, names, saved, files, i + 1, c2)
    ensures c2.pending == c.pending + UpStep(route, names, files, i)
    ensures c2.store == (if route == ViaTx then c.store else Store(c.store.rows + [Row(names[i], i)], c.store.applied))
  {
    var c1 := InTx(v, c, Exec(files[names[i]].up)).value;
    c2 := OnLedger(route, v, c1, Insert(Row(names[i], i))).value;
    if route == ViaTx {
      Associative(c.pending, [Exec(files[names[i]].up)], [Insert(Row(names[i], i))]);
    }
  }

  lemma UpStepCons(v: Verdict, route: Route, names: seq<string>, saved: seq<string>,
                   files: map<string, Sections>, i: nat, t: nat, c: Conn, c2: Conn)
    requires i < |names| && !Synced(names, saved, i)
    requires UpEffect(route, names, files, Work(names, saved, i + 1), t, c2, UpFrom(v, route, names, saved, files, i + 1, c2))
    requires UpFrom(v, route, names, saved, files, i, c) == UpFrom(v, route, names, saved, files, i + 1, c2)
    requires c2.pending == c.pending + UpStep(route, names, files, i)
    requires c2.store == (if route == ViaTx then c.store else Store(c.store.rows + [Row(names[i], i)], c.store.applied))
    ensures UpEffect(route, names, files, Work(names, saved, i), t + 1, c, UpFrom(v, route, names, saved, files, i, c))
  {
    var rest := Work(names, saved, i + 1);
    assert Work(names, saved, i) == [i] + rest;
    UpStepExtends(names, files, route, i, rest, t);
    UpEffectCons(route, names, files, i, rest, t, c, c2, UpFrom(v, route, names, saved, files, i + 1, c2));
  }

  /** When the first work position fails, the walk stops there with nothing done. */
  lemma UpFirstFails(v: Verdict, route: Route, names: seq<string>, saved: seq<string>,
                     files: map<string, Sections>, i: nat, c: Conn)
    requires i < |names| && !Synced(names, saved, i) && UpBlocked(v, route, names, files, i, c)
    ensures UpEffect(route, names, files, Work(names, saved, i), 0, c, UpFrom(v, route, names, saved, files, i, c))
  {
    var w := Work(names, saved, i);
    assert w[0] == i && w[..0] == [];
    var r := UpFrom(v, route, names, saved, files, i, c);
    if names[i] !in files {
      assert r == Walk(c, Unreadable(names[i]));
    } else {
      var run := Exec(files[names[i]].up);
      if InTx(v, c, run).None? {
        assert r == Walk(c, Refused(run));
      } else {
        var c1 := InTx(v, c, run).value;
        assert r == Walk(c1, Refused(Insert(Row(names[i], i))));
        assert c1 == Conn(c.store, c.pending + [run]);
      }
    }
  }

  lemma UpEffectCons(route: Route, names: seq<string>, files: map<string, Sections>,
                     i: nat, rest: seq<nat>, t: nat, c: Conn, c2: Conn, r: Walk)
    requires i < |names| && InRange(rest, |names|) && InRange([i] + rest, |names|) && t <= |rest|
    requires UpEffect(route, names, files, rest, t, c2, r)
    requires c2.pending == c.pending + UpStep(route, names, files, i)
    requires c2.store == (if route == ViaTx then c.store else Store(c.store.rows + [Row(names[i], i)], c.store.applied))
    requires ([i] + rest)[..t + 1] == [i] + rest[..t]
    requires UpTrace(route, names, files, [i] + rest[..t])
             == UpStep(route, names, files, i) + UpTrace(route, names, files, rest[..t])
    requires RowsAt(names, [i] + rest[..t]) == [Row(names[i], i)] + RowsAt(names, rest[..t])
    ensures UpEffect(route, names, files, [i] + rest, t + 1, c, r)
  {
    var w := [i] + rest;
    assert t < |rest| ==> w[t + 1] == rest[t];
    assert StopAt(names, files, w, t + 1, r.stop);
    ReachedCons(route, names, files, i, rest, t, c, c2, r.stop);
  }

  lemma ReachedCons(route: Route, names: seq<string>, files: map<string, Sections>,
                    i: nat, rest: seq<nat>, t: nat, c: Conn, c2: Conn, stop: Stop)
    requires i < |names| && InRange(rest, |names|) && InRange([i] + rest, |names|) && t <= |rest|
    requires c2.pending == c.pending + UpStep(route, names, files, i)
    requires c2.store == (if route == ViaTx then c.store else Store(c.store.rows + [Row(names[i], i)], c.store.applied))
    requires ([i] + rest)[..t + 1] == [i] + rest[..t]
    requires UpTrace(route, names, files, [i] + rest[..t])
             == UpStep(route, names, files, i) + UpTrace(route, names, files, rest[..t])
    requires RowsAt(names, [i] + rest[..t]) == [Row(names[i], i)] + RowsAt(names, rest[..t])
    ensures Reached(route, names, files, [i] + rest, t + 1, c, stop) == Reached(route, names, files, rest, t, c2, stop)
  {
    var w := [i] + rest;
    assert t < |rest| ==> w[t + 1] == rest[t];
    var e1 := if t + 1 < |w| && stop == Refused(Insert(Row(names[w[t + 1]], w[t + 1])))
              then [Exec(SectionText(files, names[w[t + 1]], Up))] else [];
    var e2 := if t < |rest| && stop == Refused(Insert(Row(names[rest[t]], rest[t])))
              then [Exec(SectionText(files, names[rest[t]], Up))] else [];
    assert e1 == e2;
    var step := UpStep(route, names, files, i);
    var tail := UpTrace(route, names, files, rest[..t]);
    assert UpTrace(route, names, files, w[..t + 1]) == step + tail;
    Associative(c.pending, step, tail);
    assert c.pending + UpTrace(route, names, files, w[..t + 1]) + e1 == c2.pending + tail + e2;
    var s1 := if route == ViaTx then c.store else Store(c.store.rows + RowsAt(names, w[..t + 1]), c.store.applied);
    var s2 := if route == ViaTx then c2.store else Store(c2.store.rows + RowsAt(names, rest[..t]), c2.store.applied);
    assert s1 == s2 by {
      if route == ViaDb {
        Associative(c.store.rows, [Row(names[i], i)], RowsAt(names, rest[..t]));
      }
    }
    assert Reached(route, names, files, w, t + 1, c, stop) == Conn(s1, c.pending + UpTrace(route, names, files, w[..t + 1]) + e1);
    assert Reached(route, names, files, rest, t, c2, stop) == Conn(s2, c2.pending + tail + e2);
  }

  /** Prepending a position to the work prepends its statements and its row. */
  lemma UpStepExtends(names: seq<string>, files: map<string, Sections>, route: Route,
                      i: nat, rest: seq<nat>, t: nat)
    requires i < |names| && InRange(rest, |names|) && t <= |rest|
    ensures ([i] + rest)[..t + 1] == [i] + rest[..t]
    ensures UpTrace(route, names, files, [i] + rest[..t]) == UpStep(route, names, files, i) + UpTrace(route, names, files, rest[..t])
    ensures RowsAt(names, [i] + rest[..t]) == [Row(names[i], i)] + RowsAt(names, rest[..t])
  {
    assert ([i] + rest[..t])[1..] == rest[..t];
    RowsAtCons(names, [i] + rest[..t]);
  }

  lemma RecordedSnoc(rows: seq<Row>, x: Row, name: string)
    ensures Recorded(rows + [x], name) <==> Recorded(rows, name) || x.name == name
  {
    if Recorded(rows, name) {
      var k :| 0 <= k < |rows| && rows[k].name == name;
      assert (rows + [x])[k].name == name;
    }
    if Recorded(rows + [x], name) {
      var k :| 0 <= k < |rows| + 1 && (rows + [x])[k].name == name;
      if k < |rows| {
        assert rows[k].name == name;
      }
    }
    if x.name == name {
      assert (rows + [x])[|rows|].name == name;
    }
  }

  predicate Distinct(names: seq<string>) {
    forall a, b | 0 <= a < b < |names| :: names[a] != names[b]
  }

  /** A server that refuses nothing lets up go through, as long as every file can be
      opened and no name it must insert is already in the ledger. */
  lemma {:induction false} UpAccepted(v: Verdict, route: Route, names: seq<string>, saved: seq<string>,
                                      files: map<string, Sections>, i: nat, c: Conn)
    requires Permissive(v) && i <= |names| && Distinct(names)
    requires forall j | i <= j < |names| :: names[j] in files
    requires forall j | i <= j < |names| && !Synced(names, saved, j) :: !Recorded(LedgerRows(route, c), names[j])
    ensures UpFrom(v, route, names, saved, files, i, c).stop == Finished
    decreases |names| - i
  {
    if i < |names| && !Synced(names, saved, i) {
      var run := Exec(files[names[i]].up);
      var add := Insert(Row(names[i], i));
      var c1 := Conn(c.store, c.pending + [run]);
      ApplyAllSnoc(c.store, c.pending, run);
      assert InTx(v, c, run) == Some(c1);
      assert LedgerRows(route, c1) == LedgerRows(route, c);
      var c2 := OnLedger(route, v, c1, add).value;
      ApplyAllSnoc(c.store, c.pending + [run], add);
      assert LedgerRows(route, c2) == LedgerRows(route, c) + [Row(names[i], i)];
      forall j | i + 1 <= j < |names| && !Synced(names, saved, j)
        ensures !Recorded(LedgerRows(route, c2), names[j])
      {
        RecordedSnoc(LedgerRows(route, c), Row(names[i], i), names[j]);
      }
      UpAccepted(v, route, names, saved, files, i + 1, c2);
    } else if i < |names| {
      UpAccepted(v, route, names, saved, files, i + 1, c);
    }
  }

  /** Running a successful walk's statements: its rows and, in order, its up bodies. */
  lemma {:induction false} UpTraceEffect(route: Route, names: seq<string>, files: map<string, Sections>,
                                         ws: seq<nat>, st: Store)
    requires InRange(ws, |names|)
    ensures ApplyAll(st, UpTrace(route, names, files, ws))
            == Store(st.rows + (if route == ViaTx then RowsAt(names, ws) else []),
                     st.applied + Bodies(files, NamesAt(names, ws), Up))
    decreases |ws|
  {
    if ws != [] {
      var j := ws[0];
      var step := UpStep(route, names, files, j);
      ApplyAllAppend(st, step, UpTrace(route, names, files, ws[1..]));
      var st1 := ApplyAll(st, step);
      UpStepEffect(route, names, files, j, st);
      UpTraceEffect(route, names, files, ws[1..], st1);
      ConsAt(names, files, ws);
      Associative(st.applied, [SectionText(files, names[j], Up)], Bodies(files, NamesAt(names, ws[1..]), Up));
      if route == ViaTx {
        Associative(st.rows, [Row(names[j], j)], RowsAt(names, ws[1..]));
      }
    }
  }

  lemma UpStepEffect(route: Route, names: seq<string>, files: map<string, Sections>, j: nat, st: Store)
    requires j < |names|
    ensures ApplyAll(st, UpStep(route, names, files, j))
            == Store(st.rows + (if route == ViaTx then [Row(names[j], j)] else []),
                     st.applied + [SectionText(files, names[j], Up)])
  {
    var step := UpStep(route, names, files, j);
    var st1 := Apply(st, step[0]);
    if route == ViaTx {
      assert step[1..] == [step[1]] && step[1..][1..] == [];
      assert ApplyAll(st, step) == ApplyAll(st1, [step[1]]);
      assert ApplyAll(st1, [step[1]]) == ApplyAll(Apply(st1, step[1]), []);
    } else {
      assert step[1..] == [];
    }
  }

  lemma ConsAt(names: seq<string>, files: map<string, Sections>, ws: seq<nat>)
    requires InRange(ws, |names|) && ws != []
    ensures RowsAt(names, ws) == [Row(names[ws[0]], ws[0])] + RowsAt(names, ws[1..])
    ensures Bodies(files, NamesAt(names, ws), Up)
            == [SectionText(files, names[ws[0]], Up)] + Bodies(files, NamesAt(names, ws[1..]), Up)
  {
    RowsAtCons(names, ws);
    NamesAtCons(names, ws);
    BodiesCons(files, NamesAt(names, ws), Up);
  }

  lemma RowsAtCons(names: seq<string>, ws: seq<nat>)
    requires InRange(ws, |names|) && ws != []
    ensures RowsAt(names, ws) == [Row(names[ws[0]], ws[0])] + RowsAt(names, ws[1..])
  {
    var a, b := RowsAt(names, ws), RowsAt(names, ws[1..]);
    forall k | 0 < k < |ws| ensures a[k] == b[k - 1] {
      assert ws[1..][k - 1] == ws[k];
    }
    assert a == [a[0]] + b;
  }

  lemma NamesAtCons(names: seq<string>, ws: seq<nat>)
    requires InRange(ws, |names|) && ws != []
    ensures NamesAt(names, ws) == [names[ws[0]]] + NamesAt(names, ws[1..])
  {
    var a, b := NamesAt(names, ws), NamesAt(names, ws[1..]);
    forall k | 0 < k < |ws| ensures a[k] == b[k - 1] {
      assert ws[1..][k - 1] == ws[k];
    }
    assert a == [a[0]] + b;
  }

  lemma BodiesCons(files: map<string, Sections>, names: seq<string>, sec: Section)
    requires names != []
    ensures Bodies(files, names, sec) == [SectionText(files, names[0], sec)] + Bodies(files, names[1..], sec)
  {
    var a, b := Bodies(files, names, sec), Bodies(files, names[1..], sec);
    forall k | 0 < k < |names| ensures a[k] == b[k - 1] {
      assert names[1..][k - 1] == names[k];
    }
    assert a == [a[0]] + b;
  }

  /** A second up over a ledger that records every name does nothing. */
  lemma {:induction false} UpSynced(v: Verdict, route: Route, names: seq<string>,
                                    files: map<string, Sections>, i: nat, c: Conn)
    requires i <= |names|
    ensures UpFrom(v, route, names, names, files, i, c) == Walk(c, Finished)
    decreases |names| - i
  {
    if i < |names| {
      UpSynced(v, route, names, files, i + 1, c);
    }
  }

  /** The positions a, a+1, ..., b-1. */
  function Range(a: nat, b: nat): (r: seq<nat>)
    requires a <= b
    ensures |r| == b - a && forall k | 0 <= k < b - a :: r[k] == a + k
    decreases b - a
  {
    if a == b then [] else [a] + Range(a + 1, b)
  }

  /** Over a ledger recording the first m names, up skips those and works on every later one. */
  lemma {:induction false} WorkAfterPrefix(names: seq<string>, m: nat, i: nat)
    requires m <= |names| && i <= |names|
    ensures i <= m ==> Work(names, names[..m], i) == Range(m, |names|)
    ensures m <= i ==> Work(names, names[..m], i) == Range(i, |names|)
    decreases |names| - i
  {
    if i < |names| {
      WorkAfterPrefix(names, m, i + 1);
      if i < m {
        assert Synced(names, names[..m], i);
      } else {
        assert !Synced(names, names[..m], i);
      }
    }
  }

  // ---------------------------------------------------------------------
  // down and rollback

  /** How many positions a revert walk from `k` steps done with `remaining` positions
      left goes through: `k == steps` after the step that reaches it, never otherwise. */
  function Budget(steps: Option<int>, k: nat, remaining: nat): (t: nat)
    ensures t <= remaining
  {
    if steps.Some? && steps.value > k then
      (if steps.value - k < remaining then steps.value - k else remaining)
    else remaining
  }

  /** The revert walk from position `i` down, after `k` steps; `steps` is None for down. */
  function RevertFrom(v: Verdict, route: Route, saved: seq<string>, files: map<string, Sections>,
                      i: int, k: nat, steps: Option<int>, c: Conn): Walk
    requires -1 <= i < |saved|
    decreases i + 1
  {
    if i < 0 then Walk(c, Finished)
    else if saved[i] !in files then Walk(c, Unreadable(saved[i]))
    else
      var run := Exec(files[saved[i]].down);
      match InTx(v, c, run)
      case None => Walk(c, Refused(run))
      case Some(c1) =>
        var remove := Delete(i);
        match OnLedger(route, v, c1, remove)
        case None => Walk(c1, Refused(remove))
        case Some(c2) =>
          if steps == Some(k + 1) then Walk(c2, Finished)
          else RevertFrom(v, route, saved, files, i - 1, k + 1, steps, c2)
  }

  function Reverse(s: seq<string>): seq<string> {
    if s == [] then [] else [s[|s| - 1]] + Reverse(s[..|s| - 1])
  }

  /** The element at position k of the reversal is the k-th from the back. */
  lemma {:induction false} ReverseSpec(s: seq<string>)
    ensures |Reverse(s)| == |s| && forall k | 0 <= k < |s| :: Reverse(s)[k] == s[|s| - 1 - k]
    decreases |s|
  {
    if s != [] {
      ReverseSpec(s[..|s| - 1]);
    }
  }

  predicate ExecOnly(ss: seq<Stmt>) {
    forall k | 0 <= k < |ss| :: ss[k].Exec?
  }

  function Sqls(ss: seq<Stmt>): (r: seq<string>)
    requires ExecOnly(ss)
    ensures |r| == |ss| && forall k | 0 <= k < |ss| :: r[k] == ss[k].sql
  {
    seq(|ss|, k requires 0 <= k < |ss| => ss[k].sql)
  }

  /** Statements that only run bodies leave the ledger alone and log their bodies. */
  lemma {:induction false} ExecOnlyEffect(st: Store, ss: seq<Stmt>)
    requires ExecOnly(ss)
    ensures ApplyAll(st, ss) == Store(st.rows, st.applied + Sqls(ss))
    decreases |ss|
  {
    if ss != [] {
      var st1 := Store(st.rows, st.applied + [ss[0].sql]);
      assert Apply(st, ss[0]) == st1;
      assert ApplyAll(st, ss) == ApplyAll(st1, ss[1..]);
      ExecOnlyEffect(st1, ss[1..]);
      assert Sqls(ss) == [ss[0].sql] + Sqls(ss[1..]);
      Associative(st.applied, [ss[0].sql], Sqls(ss[1..]));
    }
  }

  /** A revert walk can start at position `i`: every file below it can be opened, the
      ledger is the clean history of positions 0..i, and on the db route the transaction
      holds nothing but bodies. */
  predicate RevertReady(route: Route, saved: seq<string>, files: map<string, Sections>, i: int, c: Conn) {
    && -1 <= i < |saved|
    && (forall j | 0 <= j <= i :: saved[j] in files)
    && LedgerRows(route, c) == Contig(saved[..i + 1])
    && (route == ViaDb ==> ExecOnly(c.pending))
  }

  /** A server that refuses nothing lets a revert walk over a clean ledger go through:
      it deletes the top `t` priorities and runs their down bodies, highest first,
      where `t` is every remaining position unless the step count stops it earlier. */
  lemma {:induction false} RevertAccepted(v: Verdict, route: Route, saved: seq<string>,
                                          files: map<string, Sections>,
                                          i: int, k: nat, steps: Option<int>, c: Conn)
    requires Permissive(v) && RevertReady(route, saved, files, i, c)
    ensures Reverted(route, saved, files, i, Budget(steps, k, i + 1), c, RevertFrom(v, route, saved, files, i, k, steps, c))
    decreases i + 1
  {
    if i < 0 {
      RevertedNone(v, route, saved, files, k, steps, c);
    } else {
      var c2 := RevertAcceptedStep(v, route, saved, files, i, k, steps, c);
      if steps == Some(k + 1) {
        RevertedLast(route, saved, files, i, c, c2);
      } else {
        RevertAccepted(v, route, saved, files, i - 1, k + 1, steps, c2);
        RevertedCons(route, saved, files, i, k, steps, c, c2, RevertFrom(v, route, saved, files, i, k, steps, c));
      }
    }
  }

  lemma RevertedNone(v: Verdict, route: Route, saved: seq<string>, files: map<string, Sections>,
                     k: nat, steps: Option<int>, c: Conn)
    requires RevertReady(route, saved, files, -1, c)
    ensures Reverted(route, saved, files, -1, Budget(steps, k, 0), c, RevertFrom(v, route, saved, files, -1, k, steps, c))
  {
    assert saved[0..0] == [];
  }

  /** The effect of a revert walk that went through the top `t` of positions 0..i. */
  predicate Reverted(route: Route, saved: seq<string>, files: map<string, Sections>,
                     i: int, t: nat, c: Conn, r: Walk)
    requires -1 <= i < |saved| && t <= i + 1
  {
    && r.stop == Finished
    && LedgerRows(route, r.conn) == Contig(saved[..i + 1 - t])
    && View(r.conn).applied == View(c).applied + Bodies(files, Reverse(saved[i + 1 - t..i + 1]), Down)
    && (route == ViaDb ==> ExecOnly(r.conn.pending))
  }

  lemma RevertedLast(route: Route, saved: seq<string>, files: map<string, Sections>, i: nat, c: Conn, c2: Conn)
    requires i < |saved| && saved[i] in files
    requires RevertReady(route, saved, files, i - 1, c2)
    requires View(c2).applied == View(c).applied + [files[saved[i]].down]
    ensures Reverted(route, saved, files, i, 1, c, Walk(c2, Finished))
  {
    RevertBodiesCons(files, saved, i, 0);
    assert saved[i..i] == [];
  }

  lemma RevertedCons(route: Route, saved: seq<string>, files: map<string, Sections>,
                     i: nat, k: nat, steps: Option<int>, c: Conn, c2: Conn, r: Walk)
    requires i < |saved| && saved[i] in files && steps != Some(k + 1)
    requires View(c2).applied == View(c).applied + [files[saved[i]].down]
    requires Reverted(route, saved, files, i - 1, Budget(steps, k + 1, i), c2, r)
    ensures Reverted(route, saved, files, i, Budget(steps, k, i + 1), c, r)
  {
    RevertCombine(files, saved, i, k, steps, View(c).applied, View(c2).applied, View(r.conn).applied);
  }

  /** One accepted revert step: the walk's continuation, and where it leaves the ledger. */
  lemma RevertAcceptedStep(v: Verdict, route: Route, saved: seq<string>, files: map<string, Sections>,
                           i: int, k: nat, steps: Option<int>, c: Conn) returns (c2: Conn)
    requires Permissive(v) && 0 <= i && RevertReady(route, saved, files, i, c)
    ensures saved[i] in files
    ensures RevertFrom(v, route, saved, files, i, k, steps, c)
            == if steps == Some(k + 1) then Walk(c2, Finished)
               else RevertFrom(v, route, saved, files, i - 1, k + 1, steps, c2)
    ensures RevertReady(route, saved, files, i - 1, c2)
    ensures View(c2).applied == View(c).applied + [files[saved[i]].down]
  {
    var name := saved[i];
    var run := Exec(files[name].down);
    var remove := Delete(i);
    var c1 := Conn(c.store, c.pending + [run]);
    ApplyAllSnoc(c.store, c.pending, run);
    assert InTx(v, c, run) == Some(c1);
    c2 := OnLedger(route, v, c1, remove).value;
    ApplyAllSnoc(c.store, c.pending + [run], remove);
    var top := saved[..i + 1];
    assert top[..|top| - 1] == saved[..i];
    WithoutTop(top);
    if route == ViaDb {
      ExecOnlyEffect(c.store, c.pending);
      ExecOnlyEffect(c2.store, c2.pending);
      assert Sqls(c2.pending) == Sqls(c.pending) + [files[name].down];
    }
  }

  lemma RevertCombine(files: map<string, Sections>, saved: seq<string>, i: nat, k: nat, steps: Option<int>,
                      before: seq<string>, middle: seq<string>, after: seq<string>)
    requires i < |saved| && saved[i] in files && steps != Some(k + 1)
    requires middle == before + [files[saved[i]].down]
    requires after == middle + Bodies(files, Reverse(saved[i - Budget(steps, k + 1, i)..i]), Down)
    ensures after == before + Bodies(files, Reverse(saved[i + 1 - Budget(steps, k, i + 1)..i + 1]), Down)
  {
    var t' := Budget(steps, k + 1, i);
    assert Budget(steps, k, i + 1) == t' + 1;
    var rest := Bodies(files, Reverse(saved[i - t'..i]), Down);
    RevertBodiesCons(files, saved, i, t');
    Associative(before, [files[saved[i]].down], rest);
  }

  lemma RevertBodiesCons(files: map<string, Sections>, saved: seq<string>, i: nat, t: nat)
    requires t <= i < |saved|
    ensures Bodies(files, Reverse(saved[i - t..i + 1]), Down)
            == [SectionText(files, saved[i], Down)] + Bodies(files, Reverse(saved[i - t..i]), Down)
  {
    var piece := saved[i - t..i + 1];
    assert piece[..|piece| - 1] == saved[i - t..i];
    assert Reverse(piece) == [saved[i]] + Reverse(saved[i - t..i]);
    BodiesCons(files, Reverse(piece), Down);
    assert Reverse(piece)[1..] == Reverse(saved[i - t..i]);
  }

  /** Whatever the server answers, a revert walk on the tx route leaves the committed
      state alone, and on the db route it commits no body and leaves only bodies pending. */
  lemma {:induction false} RevertRoute(v: Verdict, route: Route, saved: seq<string>,
                                       files: map<string, Sections>,
                                       i: int, k: nat, steps: Option<int>, c: Conn)
    requires -1 <= i < |saved|
    requires route == ViaDb ==> ExecOnly(c.pending)
    ensures var r := RevertFrom(v, route, saved, files, i, k, steps, c);
            && (route == ViaTx ==> r.conn.store == c.store)
            && (route == ViaDb ==> r.conn.store.applied == c.store.applied && ExecOnly(r.conn.pending))
    decreases i + 1
  {
    if i >= 0 && saved[i] in files {
      var run := Exec(files[saved[i]].down);
      if InTx(v, c, run).Some? {
        var c1 := InTx(v, c, run).value;
        if OnLedger(route, v, c1, Delete(i)).Some? {
          var c2 := OnLedger(route, v, c1, Delete(i)).value;
          if steps != Some(k + 1) {
            RevertRoute(v, route, saved, files, i - 1, k + 1, steps, c2);
          }
        }
      }
    }
  }

  /** The statements the transaction collects for position `j` of a revert walk. */
  function RevertStep(route: Route, saved: seq<string>, files: map<string, Sections>, j: nat): seq<Stmt>
    requires j < |saved|
  {
    var run := Exec(SectionText(files, saved[j], Down));
    if route == ViaTx then [run, Delete(j)] else [run]
  }

  /** The statements of positions hi, hi-1, ..., lo+1, in that order. */
  function RevertTrace(route: Route, saved: seq<string>, files: map<string, Sections>, lo: int, hi: int): seq<Stmt>
    requires -1 <= lo <= hi < |saved|
    decreases hi - lo
  {
    if lo == hi then [] else RevertStep(route, saved, files, hi) + RevertTrace(route, saved, files, lo, hi - 1)
  }

  /** How a revert walk that went down to position lo+1 and had `left` allowed positions
      still unused can have ended: with the budget used up, or at position lo for one of
      its reasons. */
  predicate RevertStopAt(saved: seq<string>, files: map<string, Sections>, lo: int, left: int, stop: Stop)
    requires lo < |saved|
  {
    && (stop == Finished <==> left == 0)
    && (left != 0 ==>
          && 0 <= lo
          && (|| (stop == Unreadable(saved[lo]) && saved[lo] !in files)
              || stop == Refused(Exec(SectionText(files, saved[lo], Down)))
              || stop == Refused(Delete(lo))))
  }

  /** Where such a walk leaves the connection: the statements of positions hi..lo+1
      pending (and the body of position lo when only its delete was refused), and on the
      db route the priorities lo+1..hi already deleted for good. */
  function RevertReached(route: Route, saved: seq<string>, files: map<string, Sections>,
                         lo: int, hi: int, c: Conn, stop: Stop): Conn
    requires -1 <= lo <= hi < |saved|
  {
    Conn(RevertKept(route, c.store, lo, hi),
         c.pending + RevertTrace(route, saved, files, lo, hi) + RevertExtra(saved, files, lo, stop))
  }

  /** The committed state once positions lo+1..hi went through. */
  function RevertKept(route: Route, st: Store, lo: int, hi: int): Store {
    if route == ViaTx then st else Store(Outside(st.rows, lo, hi), st.applied)
  }

  /** The body of position `j` when the walk stopped at its refused delete. */
  function RevertExtra(saved: seq<string>, files: map<string, Sections>, j: int, stop: Stop): seq<Stmt>
    requires j < |saved|
  {
    if 0 <= j && stop == Refused(Delete(j)) then [Exec(SectionText(files, saved[j], Down))] else []
  }

  /** A revert walk from `i` that went through `t` positions: it ends as RevertStopAt
      allows, where RevertReached says. */
  predicate RevertEffect(route: Route, saved: seq<string>, files: map<string, Sections>,
                         i: int, k: nat, steps: Option<int>, t: nat, c: Conn, r: Walk)
    requires -1 <= i < |saved|
  {
    && t <= Budget(steps, k, i + 1)
    && RevertEnds(route, saved, files, i - t, Budget(steps, k, i + 1) - t, i, c, r)
  }

  /** A revert walk from position hi that got down to lo+1 with `left` allowed positions
      unused. */
  predicate RevertEnds(route: Route, saved: seq<string>, files: map<string, Sections>,
                       lo: int, left: int, hi: int, c: Conn, r: Walk)
    requires -1 <= lo <= hi < |saved|
  {
    && RevertStopAt(saved, files, lo, left, r.stop)
    && r.conn == RevertReached(route, saved, files, lo, hi, c, r.stop)
  }

  /** Whatever the server answers, down and rollback go through positions i, i-1, ...
      in order and stop at the first one that fails or when the step count is reached;
      on the tx route the committed state is untouched, on the db route every delete
      made so far is already committed. */
  lemma {:induction false} RevertTraced(v: Verdict, route: Route, saved: seq<string>, files: map<string, Sections>,
                                        i: int, k: nat, steps: Option<int>, c: Conn) returns (t: nat)
    requires -1 <= i < |saved|
    ensures RevertEffect(route, saved, files, i, k, steps, t, c, RevertFrom(v, route, saved, files, i, k, steps, c))
    decreases i + 1, 1
  {
    if i < 0 {
      t := 0;
      RevertAtEnd(v, route, saved, files, k, steps, c);
    } else if RevertBlocked(v, route, saved, files, i, c) {
      t := 0;
      RevertFirstFails(v, route, saved, files, i, k, steps, c);
    } else if steps == Some(k + 1) {
      t := 1;
      RevertTracedLast(v, route, saved, files, i, k, steps, c);
    } else {
      t := RevertTracedOn(v, route, saved, files, i, k, steps, c);
    }
  }

  /** The case of RevertTraced where position `i` goes through and uses up the steps. */
  lemma RevertTracedLast(v: Verdict, route: Route, saved: seq<string>, files: map<string, Sections>,
                         i: nat, k: nat, steps: Option<int>, c: Conn)
    requires i < |saved| && !RevertBlocked(v, route, saved, files, i, c) && steps == Some(k + 1)
    ensures RevertEffect(route, saved, files, i, k, steps, 1, c, RevertFrom(v, route, saved, files, i, k, steps, c))
  {
    var c2 := RevertAdvance(v, route, saved, files, i, k, steps, c);
    RevertLastStep(route, saved, files, i, k, steps, c, RevertFrom(v, route, saved, files, i, k, steps, c));
  }

  /** The case of RevertTraced where position `i` goes through and the walk goes on. */
  lemma {:induction false} RevertTracedOn(v: Verdict, route: Route, saved: seq<string>, files: map<string, Sections>,
                                          i: nat, k: nat, steps: Option<int>, c: Conn) returns (t: nat)
    requires i < |saved| && !RevertBlocked(v, route, saved, files, i, c) && steps != Some(k + 1)
    ensures RevertEffect(route, saved, files, i, k, steps, t, c, RevertFrom(v, route, saved, files, i, k, steps, c))
    decreases i + 1, 0
  {
    var c2 := RevertAdvance(v, route, saved, files, i, k, steps, c);
    var t' := RevertTraced(v, route, saved, files, i - 1, k + 1, steps, c2);
    t := t' + 1;
    RevertStepCons(route, saved, files, i, k, steps, t', c, RevertFrom(v, route, saved, files, i, k, steps, c));
  }

  /** Where an accepted position `i` leaves the connection. */
  function RevertNext(route: Route, saved: seq<string>, files: map<string, Sections>, i: nat, c: Conn): Conn
    requires i < |saved|
  {
    Conn(if route == ViaTx then c.store else Store(Without(c.store.rows, i), c.store.applied),
         c.pending + RevertStep(route, saved, files, i))
  }

  lemma RevertAtEnd(v: Verdict, route: Route, saved: seq<string>, files: map<string, Sections>,
                    k: nat, steps: Option<int>, c: Conn)
    ensures RevertEffect(route, saved, files, -1, k, steps, 0, c, RevertFrom(v, route, saved, files, -1, k, steps, c))
  {
    OutsideNone(c.store.rows, -1);
    assert Budget(steps, k, 0) == 0;
    assert c.pending + [] + [] == c.pending;
  }

  /** Position `i` fails: its file is missing, or its body or its delete is refused. */
  predicate RevertBlocked(v: Verdict, route: Route, saved: seq<string>, files: map<string, Sections>, i: nat, c: Conn)
    requires i < |saved|
  {
    saved[i] !in files || InTx(v, c, Exec(files[saved[i]].down)).None?
    || OnLedger(route, v, InTx(v, c, Exec(files[saved[i]].down)).value, Delete(i)).None?
  }

  /** When position `i` fails, the walk stops there with nothing done. */
  lemma RevertFirstFails(v: Verdict, route: Route, saved: seq<string>, files: map<string, Sections>,
                         i: nat, k: nat, steps: Option<int>, c: Conn)
    requires i < |saved| && RevertBlocked(v, route, saved, files, i, c)
    ensures RevertEffect(route, saved, files, i, k, steps, 0, c, RevertFrom(v, route, saved, files, i, k, steps, c))
  {
    OutsideNone(c.store.rows, i);
    assert Budget(steps, k, i + 1) >= 1;
    var r := RevertFrom(v, route, saved, files, i, k, steps, c);
    assert c.pending + [] == c.pending;
    if saved[i] !in files {
      assert r == Walk(c, Unreadable(saved[i]));
    } else {
      var run := Exec(files[saved[i]].down);
      if InTx(v, c, run).None? {
        assert r == Walk(c, Refused(run));
      } else {
        var c1 := InTx(v, c, run).value;
        assert r == Walk(c1, Refused(Delete(i)));
        assert c1 == Conn(c.store, c.pending + [run]);
      }
    }
  }

  /** Position `i` goes through: the body and, on the tx route, the delete join the
      transaction; on the db route the delete is committed at once. */
  lemma RevertAdvance(v: Verdict, route: Route, saved: seq<string>, files: map<string, Sections>,
                      i: nat, k: nat, steps: Option<int>, c: Conn) returns (c2: Conn)
    requires i < |saved| && !RevertBlocked(v, route, saved, files, i, c)
    ensures steps == Some(k + 1) ==> RevertFrom(v, route, saved, files, i, k, steps, c) == Walk(c2, Finished)
    ensures steps != Some(k + 1) ==> RevertFrom(v, route, saved, files, i, k, steps, c)
                                     == RevertFrom(v, route, saved, files, i - 1, k + 1, steps, c2)
    ensures c2 == RevertNext(route, saved, files, i, c)
  {
    var run := Exec(files[saved[i]].down);
    var c1 := InTx(v, c, run).value;
    c2 := OnLedger(route, v, c1, Delete(i)).value;
    if route == ViaTx {
      Associative(c.pending, [run], [Delete(i)]);
    }
  }

  /** The last allowed position went through: the walk finishes one step down. */
  lemma RevertLastStep(route: Route, saved: seq<string>, files: map<string, Sections>,
                       i: nat, k: nat, steps: Option<int>, c: Conn, r: Walk)
    requires i < |saved| && steps == Some(k + 1)
    requires r == Walk(RevertNext(route, saved, files, i, c), Finished)
    ensures RevertEffect(route, saved, files, i, k, steps, 1, c, r)
  {
    assert Budget(steps, k, i + 1) == 1;
    RevertEndsLast(route, saved, files, i, c, r);
  }

  lemma RevertEndsLast(route: Route, saved: seq<string>, files: map<string, Sections>, i: nat, c: Conn, r: Walk)
    requires i < |saved|
    requires r == Walk(RevertNext(route, saved, files, i, c), Finished)
    ensures RevertEnds(route, saved, files, i - 1, 0, i, c, r)
  {
    var step := RevertStep(route, saved, files, i);
    assert RevertTrace(route, saved, files, i - 1, i) == step + [] == step;
    assert RevertExtra(saved, files, i - 1, Finished) == [];
    assert c.pending + step + [] == r.conn.pending;
    RevertKeptOne(route, c.store, i);
  }

  lemma RevertKeptOne(route: Route, st: Store, i: int)
    ensures RevertKept(route, st, i - 1, i)
            == if route == ViaTx then st else Store(Without(st.rows, i), st.applied)
  {
    if route == ViaDb {
      OutsideNone(Without(st.rows, i), i - 1);
      OutsideWithout(st.rows, i - 1, i);
    }
  }

  /** A position that went through, in front of the walk from the position below it. */
  lemma RevertStepCons(route: Route, saved: seq<string>, files: map<string, Sections>,
                       i: nat, k: nat, steps: Option<int>, t: nat, c: Conn, r: Walk)
    requires i < |saved| && steps != Some(k + 1)
    requires RevertEffect(route, saved, files, i - 1, k + 1, steps, t, RevertNext(route, saved, files, i, c), r)
    ensures RevertEffect(route, saved, files, i, k, steps, t + 1, c, r)
  {
    var lo := i - 1 - t;
    var left := Budget(steps, k + 1, i) - t;
    assert Budget(steps, k, i + 1) == Budget(steps, k + 1, i) + 1;
    assert i - (t + 1) == lo && Budget(steps, k, i + 1) - (t + 1) == left;
    RevertEndsCons(route, saved, files, lo, left, i, c, r);
  }

  /** The part of RevertTraced the branches use: the committed state the walk leaves,
      and, when it finished, the statements it leaves pending. */
  lemma RevertTracedEnds(v: Verdict, route: Route, saved: seq<string>, files: map<string, Sections>,
                         i: int, k: nat, steps: Option<int>, c: Conn) returns (t: nat)
    requires -1 <= i < |saved|
    ensures t <= i + 1
    ensures var r := RevertFrom(v, route, saved, files, i, k, steps, c);
            && r.conn.store == RevertKept(route, c.store, i - t, i)
            && (r.stop == Finished ==> r.conn.pending == c.pending + RevertTrace(route, saved, files, i - t, i))
  {
    t := RevertTraced(v, route, saved, files, i, k, steps, c);
    RevertEffectEnds(route, saved, files, i, k, steps, t, c, RevertFrom(v, route, saved, files, i, k, steps, c));
  }

  /** A whole revert walk on the tx route leaves the committed state alone, and when it
      finishes it leaves pending the undoing of its top `t` positions, rows and down
      bodies together. */
  lemma RevertTxWalk(v: Verdict, saved: seq<string>, files: map<string, Sections>, steps: Option<int>, st: Store)
    returns (t: nat)
    ensures t <= |saved|
    ensures var r := RevertFrom(v, ViaTx, saved, files, |saved| - 1, 0, steps, Conn(st, []));
            && r.conn.store == st
            && (r.stop == Finished ==>
                  View(r.conn) == Store(Outside(st.rows, |saved| - 1 - t, |saved| - 1),
                                        st.applied + Bodies(files, Reverse(saved[|saved| - t..]), Down)))
  {
    var c := Conn(st, []);
    var r := RevertFrom(v, ViaTx, saved, files, |saved| - 1, 0, steps, c);
    t := RevertTracedEnds(v, ViaTx, saved, files, |saved| - 1, 0, steps, c);
    if r.stop == Finished {
      RevertTxFinishedView(saved, files, t, st, r.conn);
    }
  }

  lemma RevertTxFinishedView(saved: seq<string>, files: map<string, Sections>, t: nat, st: Store, conn: Conn)
    requires t <= |saved|
    requires conn.store == st
    requires conn.pending == [] + RevertTrace(ViaTx, saved, files, |saved| - 1 - t, |saved| - 1)
    ensures View(conn) == Store(Outside(st.rows, |saved| - 1 - t, |saved| - 1),
                                st.applied + Bodies(files, Reverse(saved[|saved| - t..]), Down))
  {
    assert conn.pending == RevertTrace(ViaTx, saved, files, |saved| - 1 - t, |saved| - 1);
    RevertTraceEffect(saved, files, |saved| - 1 - t, |saved| - 1, st);
    TopSlice(saved, t);
  }

  /** The positions above |saved|-1-t are the last t. */
  lemma TopSlice(saved: seq<string>, t: nat)
    requires t <= |saved|
    ensures saved[(|saved| - 1 - t) + 1..(|saved| - 1) + 1] == saved[|saved| - t..]
  {
  }

  /** What RevertEffect says about the connection a revert walk leaves. */
  lemma RevertEffectEnds(route: Route, saved: seq<string>, files: map<string, Sections>,
                         i: int, k: nat, steps: Option<int>, t: nat, c: Conn, r: Walk)
    requires -1 <= i < |saved| && RevertEffect(route, saved, files, i, k, steps, t, c, r)
    ensures t <= i + 1
    ensures r.conn.store == RevertKept(route, c.store, i - t, i)
    ensures r.stop == Finished ==> r.conn.pending == c.pending + RevertTrace(route, saved, files, i - t, i)
  {
    RevertEndsFinished(route, saved, files, i - t, Budget(steps, k, i + 1) - t, i, c, r);
  }

  /** What a revert walk's end says about the connection it leaves. */
  lemma RevertEndsFinished(route: Route, saved: seq<string>, files: map<string, Sections>,
                           lo: int, left: int, hi: int, c: Conn, r: Walk)
    requires -1 <= lo <= hi < |saved| && RevertEnds(route, saved, files, lo, left, hi, c, r)
    ensures r.conn.store == RevertKept(route, c.store, lo, hi)
    ensures r.stop == Finished ==> r.conn.pending == c.pending + RevertTrace(route, saved, files, lo, hi)
  {
    if r.stop == Finished {
      assert RevertExtra(saved, files, lo, Finished) == [];
    }
  }

  lemma RevertEndsCons(route: Route, saved: seq<string>, files: map<string, Sections>,
                       lo: int, left: int, i: nat, c: Conn, r: Walk)
    requires -1 <= lo < i < |saved|
    requires RevertEnds(route, saved, files, lo, left, i - 1, RevertNext(route, saved, files, i, c), r)
    ensures RevertEnds(route, saved, files, lo, left, i, c, r)
  {
    RevertReachedCons(route, saved, files, lo, i, c, r.stop);
  }

  lemma RevertReachedCons(route: Route, saved: seq<string>, files: map<string, Sections>,
                          lo: int, i: nat, c: Conn, stop: Stop)
    requires -1 <= lo < i < |saved|
    ensures RevertReached(route, saved, files, lo, i, c, stop)
            == RevertReached(route, saved, files, lo, i - 1, RevertNext(route, saved, files, i, c), stop)
  {
    var step := RevertStep(route, saved, files, i);
    var tail := RevertTrace(route, saved, files, lo, i - 1);
    assert RevertTrace(route, saved, files, lo, i) == step + tail;
    Associative(c.pending, step, tail);
    RevertKeptCons(route, c.store, lo, i);
  }

  lemma RevertKeptCons(route: Route, st: Store, lo: int, i: int)
    requires lo < i
    ensures RevertKept(route, st, lo, i)
            == RevertKept(route, if route == ViaTx then st else Store(Without(st.rows, i), st.applied), lo, i - 1)
  {
    if route == ViaDb {
      OutsideWithout(st.rows, lo, i);
    }
  }

  lemma RevertStepEffect(saved: seq<string>, files: map<string, Sections>, i: nat, st: Store) returns (st1: Store)
    requires i < |saved|
    ensures st1 == Store(Without(st.rows, i), st.applied + [SectionText(files, saved[i], Down)])
    ensures ApplyAll(st, RevertStep(ViaTx, saved, files, i)) == st1
  {
    var step := RevertStep(ViaTx, saved, files, i);
    var st0 := Apply(st, step[0]);
    st1 := Store(Without(st.rows, i), st.applied + [SectionText(files, saved[i], Down)]);
    assert step[1..] == [Delete(i)] && step[1..][1..] == [];
    assert ApplyAll(st, step) == ApplyAll(st0, [Delete(i)]);
    assert ApplyAll(st0, [Delete(i)]) == ApplyAll(Apply(st0, Delete(i)), []);
  }

  /** Running the statements of `t` accepted revert positions on the tx route: the
      priorities lo+1..hi deleted and their down bodies run, highest first. */
  lemma {:induction false} RevertTraceEffect(saved: seq<string>, files: map<string, Sections>, lo: int, hi: int, st: Store)
    requires -1 <= lo <= hi < |saved|
    ensures ApplyAll(st, RevertTrace(ViaTx, saved, files, lo, hi))
            == Store(Outside(st.rows, lo, hi), st.applied + Bodies(files, Reverse(saved[lo + 1..hi + 1]), Down))
    decreases hi - lo
  {
    if lo == hi {
      OutsideNone(st.rows, hi);
      assert saved[hi + 1..hi + 1] == [];
    } else {
      var step := RevertStep(ViaTx, saved, files, hi);
      var tail := RevertTrace(ViaTx, saved, files, lo, hi - 1);
      var body := SectionText(files, saved[hi], Down);
      var rest := Bodies(files, Reverse(saved[lo + 1..hi]), Down);
      ApplyAllAppend(st, step, tail);
      var st1 := RevertStepEffect(saved, files, hi, st);
      RevertTraceEffect(saved, files, lo, hi - 1, st1);
      OutsideWithout(st.rows, lo, hi);
      RevertBodiesCons(files, saved, hi, hi - lo - 1);
      assert hi - (hi - lo - 1) == lo + 1;
      Associative(st.applied, [body], rest);
    }
  }

  // ---------------------------------------------------------------------
  // Whole walks from a fresh transaction.

  /** A finished up walk leaves for the commit the rows of its work positions and,
      in order, their up bodies, on either route. */
  lemma UpFinishedView(route: Route, names: seq<string>, files: map<string, Sections>,
                       w: seq<nat>, st: Store, r: Walk)
    requires InRange(w, |names|)
    requires UpEffect(route, names, files, w, |w|, Conn(st, []), r)
    ensures View(r.conn) == Store(st.rows + RowsAt(names, w), st.applied + Bodies(files, NamesAt(names, w), Up))
  {
    assert w[..|w|] == w;
    var trace := UpTrace(route, names, files, w);
    assert [] + trace + [] == trace;
    UpTraceEffect(route, names, files, w, r.conn.store);
    if route == ViaDb {
      assert r.conn.store == Store(st.rows + RowsAt(names, w), st.applied);
    }
  }

  /** The clean history of the first m names followed by the rows of the later ones. */
  lemma RangeRows(names: seq<string>, m: nat)
    requires m <= |names|
    ensures Contig(names[..m]) + RowsAt(names, Range(m, |names|)) == Contig(names)
    ensures NamesAt(names, Range(m, |names|)) == names[m..]
  {
    var ws := Range(m, |names|);
    var front, back := Contig(names[..m]), RowsAt(names, ws);
    forall k | 0 <= k < |names| ensures (front + back)[k] == Contig(names)[k] {
      if k < m {
        assert (front + back)[k] == front[k];
      } else {
        assert (front + back)[k] == back[k - m];
      }
    }
    RangeNames(names, m);
  }

  /** The names at the positions m..n-1 are the names after the first m. */
  lemma RangeNames(names: seq<string>, m: nat)
    requires m <= |names|
    ensures NamesAt(names, Range(m, |names|)) == names[m..]
  {
    var ws := Range(m, |names|);
    forall k | 0 <= k < |names| - m ensures NamesAt(names, ws)[k] == names[m..][k] {
    }
  }

  /** Against a server that refuses nothing, up over a ledger recording the first m of
      distinct names, all of which can be opened, records them all at their positions
      and runs the up bodies of the others, in order. */
  lemma UpClean(v: Verdict, route: Route, names: seq<string>, files: map<string, Sections>, m: nat, st: Store)
    requires Permissive(v) && Distinct(names) && m <= |names|
    requires forall j | 0 <= j < |names| :: names[j] in files
    requires st.rows == Contig(names[..m])
    ensures var r := UpFrom(v, route, names, names[..m], files, 0, Conn(st, []));
            && r.stop == Finished
            && View(r.conn) == Store(Contig(names), st.applied + Bodies(files, names[m..], Up))
  {
    var saved := names[..m];
    var c := Conn(st, []);
    assert LedgerRows(route, c) == st.rows;
    WorkAfterPrefix(names, m, 0);
    var w := Work(names, saved, 0);
    forall j | 0 <= j < |names| && !Synced(names, saved, j)
      ensures !Recorded(LedgerRows(route, c), names[j])
    {
      RecordedContig(saved, names[j]);
    }
    UpAccepted(v, route, names, saved, files, 0, c);
    var t := UpTraced(v, route, names, saved, files, 0, c);
    var r := UpFrom(v, route, names, saved, files, 0, c);
    assert t == |w|;
    UpFinishedView(route, names, files, w, st, r);
    RangeRows(names, m);
  }

  /** Against a server that refuses nothing, a revert walk over the clean history of
      `saved`, every file of which can be opened, deletes the top `t` rows and runs their
      down bodies highest first, `t` being what the step count allows. */
  lemma RevertClean(v: Verdict, route: Route, saved: seq<string>, files: map<string, Sections>,
                    steps: Option<int>, st: Store)
    requires Permissive(v) && forall j | 0 <= j < |saved| :: saved[j] in files
    requires st.rows == Contig(saved)
    ensures var t := Budget(steps, 0, |saved|);
            var r := RevertFrom(v, route, saved, files, |saved| - 1, 0, steps, Conn(st, []));
            && r.stop == Finished
            && View(r.conn) == Store(Contig(saved[..|saved| - t]),
                                     st.applied + Bodies(files, Reverse(saved[|saved| - t..]), Down))
  {
    RevertCleanReady(route, saved, files, st);
    RevertAccepted(v, route, saved, files, |saved| - 1, 0, steps, Conn(st, []));
    RevertCleanView(route, saved, files, Budget(steps, 0, |saved|), st,
                    RevertFrom(v, route, saved, files, |saved| - 1, 0, steps, Conn(st, [])));
  }

  lemma RevertCleanReady(route: Route, saved: seq<string>, files: map<string, Sections>, st: Store)
    requires (forall j | 0 <= j < |saved| :: saved[j] in files) && st.rows == Contig(saved)
    ensures RevertReady(route, saved, files, |saved| - 1, Conn(st, []))
  {
    assert saved[..|saved|] == saved;
    assert View(Conn(st, [])) == st;
  }

  lemma RevertCleanView(route: Route, saved: seq<string>, files: map<string, Sections>, t: nat, st: Store, r: Walk)
    requires t <= |saved| && Reverted(route, saved, files, |saved| - 1, t, Conn(st, []), r)
    ensures View(r.conn) == Store(Contig(saved[..|saved| - t]),
                                  st.applied + Bodies(files, Reverse(saved[|saved| - t..]), Down))
  {
    var n := |saved|;
    assert saved[n - t..n] == saved[n - t..];
    var rows := Contig(saved[..n - t]);
    var applied := st.applied + Bodies(files, Reverse(saved[n - t..]), Down);
    assert LedgerRows(route, r.conn) == rows && View(r.conn).applied == applied;
    if route == ViaDb {
      ExecOnlyEffect(r.conn.store, r.conn.pending);
      assert View(r.conn).rows == r.conn.store.rows;
    }
    assert View(r.conn).rows == rows;
  }

  // ---------------------------------------------------------------------
  // Ledger and schema in step

  /** Every recorded name has had its up body run, in ledger order, and nothing else ran. */
  predicate Consistent(st: Store, files: map<string, Sections>) {
    st.applied == Bodies(files, NamesOf(st.rows), Up)
  }

  lemma BodiesAppend(files: map<string, Sections>, a: seq<string>, b: seq<string>, sec: Section)
    ensures Bodies(files, a + b, sec) == Bodies(files, a, sec) + Bodies(files, b, sec)
  {
  }

  lemma NamesOfAppend(a: seq<Row>, b: seq<Row>)
    ensures NamesOf(a + b) == NamesOf(a) + NamesOf(b)
  {
  }

  lemma NamesOfRowsAt(names: seq<string>, ws: seq<nat>)
    requires InRange(ws, |names|)
    ensures NamesOf(RowsAt(names, ws)) == NamesAt(names, ws)
  {
  }

  /** Recording rows together with their up bodies keeps ledger and schema in step. */
  lemma ConsistentExtend(st: Store, files: map<string, Sections>, names: seq<string>, ws: seq<nat>)
    requires InRange(ws, |names|) && Consistent(st, files)
    ensures Consistent(Store(st.rows + RowsAt(names, ws), st.applied + Bodies(files, NamesAt(names, ws), Up)), files)
  {
    NamesOfAppend(st.rows, RowsAt(names, ws));
    NamesOfRowsAt(names, ws);
    BodiesAppend(files, NamesOf(st.rows), NamesAt(names, ws), Up);
  }

  /** Whatever the server answers, an up walk on the tx route leaves the committed state
      alone, and when it finishes, the state it would commit keeps ledger and schema in step. */
  lemma UpTxConsistent(v: Verdict, names: seq<string>, saved: seq<string>, files: map<string, Sections>, st: Store)
    requires Consistent(st, files)
    ensures var r := UpFrom(v, ViaTx, names, saved, files, 0, Conn(st, []));
            && r.conn.store == st
            && (r.stop == Finished ==> Consistent(View(r.conn), files))
  {
    var w := Work(names, saved, 0);
    var t := UpTraced(v, ViaTx, names, saved, files, 0, Conn(st, []));
    var r := UpFrom(v, ViaTx, names, saved, files, 0, Conn(st, []));
    if r.stop == Finished {
      UpFinishedView(ViaTx, names, files, w, st, r);
      ConsistentExtend(st, files, names, w);
    }
  }

  // ---------------------------------------------------------------------
  // The loops, on the connection handles.

  /** addMigration on the route's handle. */
  method AddMigration(route: Route, db: Database, tx: Tx, name: string, priority: int) returns (ok: bool)
    requires tx.db == db
    modifies db, tx
    ensures tx.open == old(tx.open)
    ensures var r := OnLedger(route, db.verdict, Conn(old(db.store), old(tx.pending)), Insert(Row(name, priority)));
            (ok <==> r.Some? && old(tx.open || route == ViaDb))
            && (if ok then Conn(db.store, tx.pending) == r.value
                else db.store == old(db.store) && tx.pending == old(tx.pending))
  {
    if route == ViaTx {
      ok := tx.Exec(Insert(Row(name, priority)));
    } else {
      ok := db.Exec(Insert(Row(name, priority)));
    }
  }

  /** removeMigration on the route's handle. */
  method RemoveMigration(route: Route, db: Database, tx: Tx, priority: int) returns (ok: bool)
    requires tx.db == db
    modifies db, tx
    ensures tx.open == old(tx.open)
    ensures var r := OnLedger(route, db.verdict, Conn(old(db.store), old(tx.pending)), Delete(priority));
            (ok <==> r.Some? && old(tx.open || route == ViaDb))
            && (if ok then Conn(db.store, tx.pending) == r.value
                else db.store == old(db.store) && tx.pending == old(tx.pending))
  {
    if route == ViaTx {
      ok := tx.Exec(Delete(priority));
    } else {
      ok := db.Exec(Delete(priority));
    }
  }

  /** One position of the up loop: skip it when recorded there, else run its up body
      on the transaction and record it; `done` when the walk stops at this position. */
  method UpOne(route: Route, db: Database, tx: Tx, names: seq<string>, saved: seq<string>,
               contents: map<string, seq<string>>, i: nat) returns (done: bool, stop: Stop)
    requires tx.db == db && tx.open && i < |names|
    modifies db, tx
    ensures tx.open
    ensures var w := UpFrom(db.verdict, route, names, saved, ParseAll(contents), i, Conn(old(db.store), old(tx.pending)));
            if done then Walk(Conn(db.store, tx.pending), stop) == w
            else UpFrom(db.verdict, route, names, saved, ParseAll(contents), i + 1, Conn(db.store, tx.pending)) == w
  {
    var name := names[i];
    done, stop := false, Finished;
    if i < |saved| && saved[i] == name {
      // already migrated
      return;
    }
    if name !in contents {
      return true, Unreadable(name);
    }
    ghost var files := ParseAll(contents);
    ghost var c0 := Conn(db.store, tx.pending);
    var up, _ := ReadFile(contents[name]);
    assert files[name].up == up;
    var ok := tx.Exec(Exec(up));
    if !ok {
      return true, Refused(Exec(up));
    }
    assert InTx(db.verdict, c0, Exec(up)) == Some(Conn(db.store, tx.pending));
    ok := AddMigration(route, db, tx, name, i);
    if !ok {
      return true, Refused(Insert(Row(name, i)));
    }
  }

  /** The up loop: for each sorted name, skip it when recorded at its position, else run
      its up body on the transaction and record it at its position. */
  method UpLoop(route: Route, db: Database, tx: Tx, names: seq<string>, saved: seq<string>,
                contents: map<string, seq<string>>) returns (stop: Stop)
    requires tx.db == db && tx.open
    modifies db, tx
    ensures tx.open
    ensures Walk(Conn(db.store, tx.pending), stop)
            == UpFrom(db.verdict, route, names, saved, ParseAll(contents), 0, Conn(old(db.store), old(tx.pending)))
  {
    ghost var target := UpFrom(db.verdict, route, names, saved, ParseAll(contents), 0, Conn(db.store, tx.pending));
    var i := 0;
    while i < |names|
      invariant 0 <= i <= |names| && tx.open
      invariant UpFrom(db.verdict, route, names, saved, ParseAll(contents), i, Conn(db.store, tx.pending)) == target
    {
      var done;
      done, stop := UpOne(route, db, tx, names, saved, contents, i);
      if done {
        return;
      }
      i := i + 1;
    }
    stop := Finished;
  }

  /** One position of the down (or rollback) loop: run the down body of the file
      recorded at `i` on the transaction and delete that priority; `done` when the walk
      stops here, for an error or because `steps` are used up. */
  method RevertOne(route: Route, db: Database, tx: Tx, saved: seq<string>,
                   contents: map<string, seq<string>>, steps: Option<int>, i: nat, k: nat)
    returns (done: bool, stop: Stop)
    requires tx.db == db && tx.open && i < |saved|
    modifies db, tx
    ensures tx.open
    ensures var w := RevertFrom(db.verdict, route, saved, ParseAll(contents), i, k, steps, Conn(old(db.store), old(tx.pending)));
            if done then Walk(Conn(db.store, tx.pending), stop) == w
            else RevertFrom(db.verdict, route, saved, ParseAll(contents), i - 1, k + 1, steps, Conn(db.store, tx.pending)) == w
  {
    var name := saved[i];
    if name !in contents {
      return true, Unreadable(name);
    }
    ghost var files := ParseAll(contents);
    ghost var c0 := Conn(db.store, tx.pending);
    var _, down := ReadFile(contents[name]);
    assert files[name].down == down;
    var ok := tx.Exec(Exec(down));
    if !ok {
      return true, Refused(Exec(down));
    }
    assert InTx(db.verdict, c0, Exec(down)) == Some(Conn(db.store, tx.pending));
    ok := RemoveMigration(route, db, tx, i);
    if !ok {
      return true, Refused(Delete(i));
    }
    done, stop := steps == Some(k + 1), Finished;
  }

  /** The down loop (steps None) and the rollback loop (steps Some): from the highest
      position down, run the down body on the transaction and delete that priority. */
  method RevertLoop(route: Route, db: Database, tx: Tx, saved: seq<string>,
                    contents: map<string, seq<string>>, steps: Option<int>) returns (stop: Stop)
    requires tx.db == db && tx.open
    modifies db, tx
    ensures tx.open
    ensures Walk(Conn(db.store, tx.pending), stop)
            == RevertFrom(db.verdict, route, saved, ParseAll(contents), |saved| - 1, 0, steps, Conn(old(db.store), old(tx.pending)))
  {
    ghost var target := RevertFrom(db.verdict, route, saved, ParseAll(contents), |saved| - 1, 0, steps, Conn(db.store, tx.pending));
    var k: nat := 0;
    var i := |saved| - 1;
    while i >= 0
      invariant -1 <= i < |saved| && tx.open
      invariant RevertFrom(db.verdict, route, saved, ParseAll(contents), i, k, steps, Conn(db.store, tx.pending)) == target
      decreases i + 1
    {
      var done;
      done, stop := RevertOne(route, db, tx, saved, contents, steps, i, k);
      if done {
        return;
      }
      k := k + 1;
      i := i - 1;
    }
    stop := Finished;
  }
}
