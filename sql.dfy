// The database the engine talks to, as far as the engine can observe it: the
// ledger table amigo_migrations, the migration scripts it has run, and a server
// that may refuse any request.  A *sql.DB autocommits each statement; a *sql.Tx
// collects statements that become visible to others only when it commits.

module Sql {

  datatype Option<T> = None | Some(value: T)

  /** One row of amigo_migrations: the file name and its priority column. */
  datatype Row = Row(name: string, priority: int)

  /** The statements the engine sends. */
  datatype Stmt =
    | CreateLedger          // create table if not exists amigo_migrations (...)
    | Exec(sql: string)     // the up or down body of a migration file
    | Insert(row: Row)      // insert into amigo_migrations (name, priority) values (?, ?)
    | Delete(priority: int) // delete from amigo_migrations where priority=?

  /** The committed state: the ledger rows in insertion order and the bodies run so far. */
  datatype Store = Store(rows: seq<Row>, applied: seq<string>)

  /** What can be asked of the server. */
  datatype Request = Opening | Committing | Reading | Run(stmt: Stmt)

  /** The server's answer to a request in a given state: accepted or refused. It stands
      for everything the engine cannot see (syntax errors, permissions, lost connections). */
  type Verdict = (Store, Request) -> bool

  /** A server that refuses nothing. */
  ghost predicate Permissive(v: Verdict) {
    forall st: Store, q: Request :: v(st, q)
  }

  /** The ledger already holds a row named `name` (the table's unique constraint on name). */
  predicate Recorded(rows: seq<Row>, name: string) {
    exists k | 0 <= k < |rows| :: rows[k].name == name
  }

  /** A statement is carried out when the server accepts it and it keeps names unique. */
  predicate Admits(v: Verdict, st: Store, s: Stmt) {
    v(st, Run(s)) && (s.Insert? ==> !Recorded(st.rows, s.row.name))
  }

  /** The rows with priority `p` removed, the others kept in order. */
  function Without(rows: seq<Row>, p: int): (r: seq<Row>)
    ensures forall k | 0 <= k < |r| :: r[k].priority != p && r[k] in rows
  {
    if rows == [] then []
    else
      var init := Without(rows[..|rows| - 1], p);
      var last := rows[|rows| - 1];
      assert forall x | x in rows[..|rows| - 1] :: x in rows;
      init + (if last.priority == p then [] else [last])
  }

  /** Deleting priority `p` keeps every row with another priority. */
  lemma {:induction false} WithoutKeeps(rows: seq<Row>, p: int)
    ensures forall x | x in rows && x.priority != p :: x in Without(rows, p)
    decreases |rows|
  {
    if rows != [] {
      var front, last := rows[..|rows| - 1], rows[|rows| - 1];
      WithoutKeeps(front, p);
      assert rows == front + [last];
    }
  }

  /** Deleting a priority from two runs of rows deletes it from each, in place. */
  lemma {:induction false} WithoutAppend(a: seq<Row>, b: seq<Row>, p: int)
    ensures Without(a + b, p) == Without(a, p) + Without(b, p)
    decreases |b|
  {
    if b == [] {
      assert a + b == a;
    } else {
      var b', y := b[..|b| - 1], b[|b| - 1];
      assert (a + b)[..|a + b| - 1] == a + b' && (a + b)[|a + b| - 1] == y;
      WithoutAppend(a, b', p);
      var tail := if y.priority == p then [] else [y];
      assert Without(a + b, p) == Without(a + b', p) + tail;
      assert Without(b, p) == Without(b', p) + tail;
      assert Without(a, p) + (Without(b', p) + tail) == Without(a, p) + Without(b', p) + tail;
    }
  }

  /** The rows whose priority is not in lo+1..hi, in order: what deleting the
      priorities hi, hi-1, ..., lo+1 one after the other leaves. */
  function Outside(rows: seq<Row>, lo: int, hi: int): seq<Row> {
    if rows == [] then []
    else
      var last := rows[|rows| - 1];
      Outside(rows[..|rows| - 1], lo, hi) + (if lo < last.priority <= hi then [] else [last])
  }

  /** Exactly the rows outside the range stay. */
  lemma {:induction false} OutsideSpec(rows: seq<Row>, lo: int, hi: int)
    ensures forall x :: x in Outside(rows, lo, hi) <==> x in rows && !(lo < x.priority <= hi)
    decreases |rows|
  {
    if rows != [] {
      var front, last := rows[..|rows| - 1], rows[|rows| - 1];
      OutsideSpec(front, lo, hi);
      assert rows == front + [last];
    }
  }

  /** Deleting the top priority of a range first leaves the rest of the range to delete. */
  lemma {:induction false} OutsideWithout(rows: seq<Row>, lo: int, hi: int)
    requires lo < hi
    ensures Outside(Without(rows, hi), lo, hi - 1) == Outside(rows, lo, hi)
    decreases |rows|
  {
    if rows != [] {
      var front, last := rows[..|rows| - 1], rows[|rows| - 1];
      OutsideWithout(front, lo, hi);
      var w := Without(front, hi);
      if last.priority == hi {
        assert Without(rows, hi) == w;
      } else {
        var w' := w + [last];
        assert Without(rows, hi) == w';
        assert w'[..|w'| - 1] == w && w'[|w'| - 1] == last;
      }
    }
  }

  /** An empty range deletes nothing. */
  lemma {:induction false} OutsideNone(rows: seq<Row>, p: int)
    ensures Outside(rows, p, p) == rows
    decreases |rows|
  {
    if rows != [] {
      var front, last := rows[..|rows| - 1], rows[|rows| - 1];
      OutsideNone(front, p);
      assert rows == front + [last];
    }
  }

  /** The effect of one statement that was carried out. */
  function Apply(st: Store, s: Stmt): Store {
    match s
    case CreateLedger => st
    case Exec(sql) => Store(st.rows, st.applied + [sql])
    case Insert(row) => Store(st.rows + [row], st.applied)
    case Delete(p) => Store(Without(st.rows, p), st.applied)
  }

  /** The effect of a sequence of statements, the first one first. */
  function ApplyAll(st: Store, ss: seq<Stmt>): Store
    decreases |ss|
  {
    if ss == [] then st else ApplyAll(Apply(st, ss[0]), ss[1..])
  }

  lemma {:induction false} ApplyAllSnoc(st: Store, ss: seq<Stmt>, s: Stmt)
    ensures ApplyAll(st, ss + [s]) == Apply(ApplyAll(st, ss), s)
    decreases |ss|
  {
    if ss != [] {
      assert (ss + [s])[1..] == ss[1..] + [s];
      ApplyAllSnoc(Apply(st, ss[0]), ss[1..], s);
    }
  }

  lemma {:induction false} ApplyAllAppend(st: Store, a: seq<Stmt>, b: seq<Stmt>)
    ensures ApplyAll(st, a + b) == ApplyAll(ApplyAll(st, a), b)
    decreases |a|
  {
    if a != [] {
      assert (a + b)[0] == a[0] && (a + b)[1..] == a[1..] + b;
      ApplyAllAppend(Apply(st, a[0]), a[1..], b);
    } else {
      assert a + b == b;
    }
  }

  // ---------------------------------------------------------------------
  // select name from amigo_migrations order by priority

  predicate ByPriority(rows: seq<Row>) {
    forall i, j | 0 <= i < j < |rows| :: rows[i].priority <= rows[j].priority
  }

  /** Puts `x` before the first row whose priority is not below its own. */
  function InsertRow(x: Row, rows: seq<Row>): seq<Row> {
    if rows == [] || x.priority <= rows[0].priority then [x] + rows
    else [rows[0]] + InsertRow(x, rows[1..])
  }

  lemma {:induction false} InsertRowSpec(x: Row, rows: seq<Row>)
    requires ByPriority(rows)
    ensures ByPriority(InsertRow(x, rows))
    ensures multiset(InsertRow(x, rows)) == multiset(rows) + multiset{x}
  {
    if rows == [] || x.priority <= rows[0].priority {
      FrontByPriority(x, rows);
    } else {
      var t := InsertRow(x, rows[1..]);
      InsertRowSpec(x, rows[1..]);
      assert rows == [rows[0]] + rows[1..];
      forall y | y in t ensures rows[0].priority <= y.priority {
        assert y in multiset(t);
        if y != x {
          var k :| 0 <= k < |rows[1..]| && rows[1..][k] == y;
          assert rows[k + 1] == y;
        }
      }
      FrontByPriority(rows[0], t);
    }
  }

  lemma FrontByPriority(x: Row, rows: seq<Row>)
    requires ByPriority(rows)
    requires forall y | y in rows :: x.priority <= y.priority
    ensures ByPriority([x] + rows)
  {
    forall i, j | 0 <= i < j < |rows| + 1
      ensures ([x] + rows)[i].priority <= ([x] + rows)[j].priority
    {
      if i == 0 {
        assert rows[j - 1] in rows;
      } else {
        assert ([x] + rows)[i] == rows[i - 1] && ([x] + rows)[j] == rows[j - 1];
      }
    }
  }

  /** A stable sort of the rows by priority; rows of equal priority keep table order. */
  function SortRows(rows: seq<Row>): (r: seq<Row>)
    ensures ByPriority(r)
    ensures multiset(r) == multiset(rows)
  {
    if rows == [] then []
    else
      assert rows == [rows[0]] + rows[1..];
      InsertRowSpec(rows[0], SortRows(rows[1..]));
      InsertRow(rows[0], SortRows(rows[1..]))
  }

  function NamesOf(rows: seq<Row>): (r: seq<string>)
    ensures |r| == |rows| && forall k | 0 <= k < |rows| :: r[k] == rows[k].name
  {
    seq(|rows|, k requires 0 <= k < |rows| => rows[k].name)
  }

  /** retrieveMigratedList: the recorded names in priority order. */
  function Retrieve(rows: seq<Row>): seq<string> {
    NamesOf(SortRows(rows))
  }

  lemma {:induction false} SortRowsKeeps(rows: seq<Row>)
    requires ByPriority(rows)
    ensures SortRows(rows) == rows
  {
    if rows != [] {
      SortRowsKeeps(rows[1..]);
    }
  }

  /** The ledger a clean history leaves: the names at priorities 0, 1, 2, ... */
  function Contig(names: seq<string>): (r: seq<Row>)
    ensures |r| == |names| && forall k | 0 <= k < |names| :: r[k] == Row(names[k], k)
  {
    seq(|names|, k requires 0 <= k < |names| => Row(names[k], k))
  }

  /** Reading back a clean history gives its names in order. */
  lemma RetrieveContig(names: seq<string>)
    ensures Retrieve(Contig(names)) == names
  {
    SortRowsKeeps(Contig(names));
  }

  lemma ContigSnoc(names: seq<string>, x: string)
    ensures Contig(names + [x]) == Contig(names) + [Row(x, |names|)]
  {
  }

  lemma {:induction false} WithoutAbsent(rows: seq<Row>, p: int)
    requires forall k | 0 <= k < |rows| :: rows[k].priority != p
    ensures Without(rows, p) == rows
  {
    if rows != [] {
      var init, last := rows[..|rows| - 1], rows[|rows| - 1];
      assert rows == init + [last] by {
        forall k | 0 <= k < |rows| ensures rows[k] == (init + [last])[k] {
        }
      }
      assert forall k | 0 <= k < |init| :: init[k].priority != p by {
        forall k | 0 <= k < |init| ensures init[k].priority != p {
          assert init[k] == rows[k];
        }
      }
      WithoutAbsent(init, p);
      assert last.priority != p by { assert last == rows[|rows| - 1]; }
      assert Without(rows, p) == init + [last];
    }
  }

  /** Deleting the top priority of a clean history leaves the clean history one shorter. */
  lemma WithoutTop(names: seq<string>)
    requires names != []
    ensures Without(Contig(names), |names| - 1) == Contig(names[..|names| - 1])
  {
    var rows := Contig(names);
    var init := names[..|names| - 1];
    assert rows[..|rows| - 1] == Contig(init);
    WithoutAbsent(Contig(init), |names| - 1);
  }

  lemma RecordedContig(names: seq<string>, x: string)
    ensures Recorded(Contig(names), x) <==> x in names
  {
    if x in names {
      var k :| 0 <= k < |names| && names[k] == x;
      assert Contig(names)[k].name == x;
    }
  }

  // ---------------------------------------------------------------------
  // The connection handles.

  /** A *sql.DB: statements run on it are committed at once. */
  class Database {
    var store: Store
    const verdict: Verdict

    constructor (initial: Store, answers: Verdict)
      ensures store == initial && verdict == answers
    {
      store := initial;
      verdict := answers;
    }

    /** db.Exec: an accepted statement is committed, a refused one changes nothing. */
    method Exec(s: Stmt) returns (ok: bool)
      modifies this
      ensures ok == Admits(verdict, old(store), s)
      ensures store == if ok then Apply(old(store), s) else old(store)
    {
      ok := Admits(verdict, store, s);
      if ok {
        store := Apply(store, s);
      }
    }

    /** db.Query of the ledger; None when the server refuses it. */
    method Query() returns (names: Option<seq<string>>)
      ensures names == if verdict(store, Reading) then Some(Retrieve(store.rows)) else None
    {
      if verdict(store, Reading) {
        names := Some(Retrieve(store.rows));
      } else {
        names := None;
      }
    }

    /** db.Begin: a fresh open transaction, or null when the server refuses it. */
    method Begin() returns (tx: Tx?)
      ensures verdict(store, Opening) <==> tx != null
      ensures tx != null ==> fresh(tx) && tx.db == this && tx.pending == [] && tx.open
    {
      if verdict(store, Opening) {
        tx := new Tx(this);
      } else {
        tx := null;
      }
    }
  }

  /** A *sql.Tx: the statements run on it so far, seen only by itself until it commits. */
  class Tx {
    const db: Database
    var pending: seq<Stmt>
    var open: bool

    constructor (owner: Database)
      ensures db == owner && pending == [] && open
    {
      db := owner;
      pending := [];
      open := true;
    }

    /** What the transaction sees: the committed state with its own statements on top. */
    function View(): Store
      reads this, db
    {
      ApplyAll(db.store, pending)
    }

    /** tx.Exec: refused when the transaction is over or the statement is not admitted. */
    method Exec(s: Stmt) returns (ok: bool)
      modifies this
      ensures ok == (old(open) && Admits(db.verdict, old(View()), s))
      ensures pending == if ok then old(pending) + [s] else old(pending)
      ensures open == old(open)
    {
      ok := open && Admits(db.verdict, View(), s);
      if ok {
        pending := pending + [s];
      }
    }

    /** tx.Query of the ledger as the transaction sees it. */
    method Query() returns (names: Option<seq<string>>)
      ensures names == if open && db.verdict(View(), Reading) then Some(Retrieve(View().rows)) else None
    {
      if open && db.verdict(View(), Reading) {
        names := Some(Retrieve(View().rows));
      } else {
        names := None;
      }
    }

    /** tx.Commit: the statements become part of the committed state when the server
        accepts; either way the transaction is over. */
    method Commit() returns (ok: bool)
      modifies this, db
      ensures ok == (old(open) && db.verdict(old(db.store), Committing))
      ensures db.store == if ok then ApplyAll(old(db.store), old(pending)) else old(db.store)
      ensures !open && pending == []
    {
      ok := open && db.verdict(db.store, Committing);
      if ok {
        db.store := ApplyAll(db.store, pending);
      }
      open := false;
      pending := [];
    }

    /** tx.Rollback: the statements are dropped and the transaction is over. */
    method Rollback() returns (ok: bool)
      modifies this
      ensures ok == old(open)
      ensures !open && pending == []
    {
      ok := open;
      open := false;
      pending := [];
    }
  }
}
