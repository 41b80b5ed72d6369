// The `create` branch (pkg/cmd.go and cmd/cmd.go hold the same code): the
// slug, the choice of template and the name of the new migration file.

module Naming {
  import opened Text
  import opened Order
  import opened Script

  /** dashify: lower case, and every space turned into an underscore. */
  function Dashify(name: string): (r: string)
    ensures |r| == |name|
    ensures ' ' !in r
    ensures forall k | 0 <= k < |r| :: !IsUpper(r[k])
    ensures forall k | 0 <= k < |name| :: r[k] == (if name[k] == ' ' then '_' else LowerChar(name[k]))
  {
    ReplaceChar(ToLower(name), ' ', '_')
  }

  /** dashify is idempotent. */
  lemma DashifyTwice(name: string)
    ensures Dashify(Dashify(name)) == Dashify(name)
  {
    var d := Dashify(name);
    forall k | 0 <= k < |d| ensures Dashify(d)[k] == d[k] {
      assert d[k] != ' ' by { assert d[k] in d; }
    }
  }

  /** The lines of the skeleton for a table migration. */
  const TableLines: seq<string> := [
    "/* -- migrate_up -- */",
    "create table TABLE_NAME(",
    "\tid int auto_increment,",
    "\tconstraint primary key (id)",
    ");",
    "/* -- migrate_down -- */",
    "drop table TABLE_NAME;"
  ]

  /** The lines of the skeleton for any other migration. */
  const EmptyLines: seq<string> := [
    "/* -- migrate_up -- */",
    "/* -- migrate_down -- */"
  ]

  /** The bytes written to the new file: the skeleton's lines, no final line feed. */
  function Template(isTable: bool): string {
    JoinLines(if isTable then TableLines else EmptyLines)
  }

  /** The new file's name inside the migrations directory. */
  function EntryName(stamp: string, slug: string): string {
    stamp + "_create_" + slug + ".sql"
  }

  /** The `create` branch: the path written to and the bytes written, for the given
      name argument and the UTC time already formatted as 2006_01_02_15_04_05. */
  function Create(path: string, stamp: string, arg: string): (r: (string, string))
    ensures var slug := Dashify(if arg == "" then "some" else arg);
            && r.0 == path + "/" + EntryName(stamp, slug)
            && (r.1 == Template(true) <==> Contains(slug, "table"))
            && (r.1 == Template(false) <==> !Contains(slug, "table"))
  {
    var property := if arg == "" then "some" else arg;
    var slug := Dashify(property);
    var isTable := Contains(slug, "table");
    TemplatesDiffer();
    (path + "/" + EntryName(stamp, slug), Template(isTable))
  }

  lemma TemplatesDiffer()
    ensures Template(true) != Template(false)
  {
    assert |Template(false)| < |Template(true)|;
  }

  // ---------------------------------------------------------------------
  // The skeletons are laid out exactly as the scanner expects.

  lemma MarkerLines()
    ensures Contains(Trim(TableLines[0]), UpMarker)
    ensures Contains(Trim(TableLines[5]), DownMarker) && !Contains(Trim(TableLines[5]), UpMarker)
  {
    var u := TableLines[0];
    var d := TableLines[5];
    TrimKeeps(u);
    TrimKeeps(d);
    assert OccursAt(u, UpMarker, 6);
    assert OccursAt(d, DownMarker, 6);
    AbsentChar(d, UpMarker, 'u');
  }

  lemma TableBodyLines()
    ensures MarkerFree(TableLines[1..5]) && MarkerFree(TableLines[6..])
    ensures TrimAll(TableLines[1..5]) == TableLines[1..5]
    ensures TrimAll(TableLines[6..]) == TableLines[6..]
  {
    forall k | 1 <= k < |TableLines| && k != 5
      ensures Trim(TableLines[k]) == TableLines[k] && !IsMarker(TableLines[k])
    {
      TrimKeeps(TableLines[k]);
      AbsentChar(TableLines[k], UpMarker, 'g');
      AbsentChar(TableLines[k], DownMarker, 'g');
    }
    assert TableLines[6..] == [TableLines[6]];
  }

  /** Reading back the table skeleton gives its create statement as the up section
      and `drop table TABLE_NAME;` as the down section. */
  lemma TableTemplateParses()
    ensures Body(ScanLines(Template(true)), Up)
            == "create table TABLE_NAME(" + "\n" + "\tid int auto_increment," + "\n"
               + "\tconstraint primary key (id)" + "\n" + ");"
    ensures Body(ScanLines(Template(true)), Down) == "drop table TABLE_NAME;"
  {
    SkeletonScans(TableLines);
    TableSections();
    UpText();
    DownText();
  }

  lemma TableSections()
    ensures Kept(TableLines, Up) == TableLines[1..5]
    ensures Kept(TableLines, Down) == TableLines[6..]
  {
    MarkerLines();
    TableBodyLines();
    var ups, downs := TableLines[1..5], TableLines[6..];
    assert TableLines == [TableLines[0]] + ups + [TableLines[5]] + downs;
    Layout(TableLines[0], ups, TableLines[5], downs);
  }

  lemma UpText()
    ensures Trim(Terminated(TableLines[1..5]))
            == "create table TABLE_NAME(" + "\n" + "\tid int auto_increment," + "\n"
               + "\tconstraint primary key (id)" + "\n" + ");"
  {
    var ups := TableLines[1..5];
    TerminatedJoin(ups);
    assert JoinLines(ups) == ups[0] + "\n" + JoinLines(ups[1..]);
    assert JoinLines(ups[1..]) == ups[1] + "\n" + JoinLines(ups[2..]);
    assert JoinLines(ups[2..]) == ups[2] + "\n" + JoinLines(ups[3..]);
    assert JoinLines(ups[3..]) == ups[3];
    TrimNewline(JoinLines(ups));
    assert ups[0] + "\n" + ups[1] + "\n" + ups[2] + "\n" + ups[3]
           == "create table TABLE_NAME(" + "\n" + "\tid int auto_increment," + "\n"
              + "\tconstraint primary key (id)" + "\n" + ");";
  }

  lemma DownText()
    ensures Trim(Terminated(TableLines[6..])) == "drop table TABLE_NAME;"
  {
    var downs := TableLines[6..];
    TerminatedJoin(downs);
    TrimNewline(JoinLines(downs));
  }

  /** Reading back the other skeleton gives two empty sections. */
  lemma EmptyTemplateParses()
    ensures Body(ScanLines(Template(false)), Up) == ""
    ensures Body(ScanLines(Template(false)), Down) == ""
  {
    SkeletonScans(EmptyLines);
    MarkerLines();
    assert EmptyLines == [TableLines[0]] + [] + [TableLines[5]] + [];
    Layout(TableLines[0], [], TableLines[5], []);
  }

  lemma SkeletonScans(lines: seq<string>)
    requires lines == TableLines || lines == EmptyLines
    ensures ScanLines(JoinLines(lines)) == lines
  {
    forall k | 0 <= k < |lines| ensures PlainLine(lines[k]) {
      AbsentChar(lines[k], "\n", '\n');
      assert '\n' !in lines[k];
    }
    ScanJoinRoundTrip(lines);
  }

  // ---------------------------------------------------------------------
  // File names sort by creation time.

  /** Two stamps of the same width order the file names they head, whatever the slugs. */
  lemma {:induction false} NamesFollowStamps(a: string, b: string, slugA: string, slugB: string)
    requires |a| == |b| && a != b && Below(a, b)
    ensures Below(EntryName(a, slugA), EntryName(b, slugB)) && !Below(EntryName(b, slugB), EntryName(a, slugA))
  {
    var x, y := EntryName(a, slugA), EntryName(b, slugB);
    assert x == a + ("_create_" + slugA + ".sql");
    assert y == b + ("_create_" + slugB + ".sql");
    StrictPrefixOrder(a, b, "_create_" + slugA + ".sql", "_create_" + slugB + ".sql");
  }

  lemma {:induction false} StrictPrefixOrder(a: string, b: string, s: string, t: string)
    requires |a| == |b| && a != b && Below(a, b)
    ensures Below(a + s, b + t) && !Below(b + t, a + s)
  {
    assert a != [] && b != [];
    assert (a + s)[0] == a[0] && (b + t)[0] == b[0];
    assert (a + s)[1..] == a[1..] + s && (b + t)[1..] == b[1..] + t;
    assert a == [a[0]] + a[1..] && b == [b[0]] + b[1..];
    if a[0] == b[0] {
      StrictPrefixOrder(a[1..], b[1..], s, t);
    }
  }
}
