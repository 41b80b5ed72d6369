// readFile (pkg/cmd.go and cmd/cmd.go hold the same code): a two-state line
// scanner that splits a migration file into its up section and its down section.

module Script {
  import opened Text

  const UpMarker := "migrate_up"
  const DownMarker := "migrate_down"

  datatype Section = Up | Down

  /** A line whose trimmed text names either marker; such lines are never kept. */
  predicate IsMarker(t: string) {
    Contains(t, UpMarker) || Contains(t, DownMarker)
  }

  /** No line of `lines` is a marker line. */
  predicate MarkerFree(lines: seq<string>) {
    forall k | 0 <= k < |lines| :: !IsMarker(Trim(lines[k]))
  }

  function TrimAll(lines: seq<string>): (r: seq<string>)
    ensures |r| == |lines|
    ensures forall k | 0 <= k < |lines| :: r[k] == Trim(lines[k])
  {
    seq(|lines|, k requires 0 <= k < |lines| => Trim(lines[k]))
  }

  /** The section in force after `lines`: the one named by the last marker line,
      `migrate_up` winning on a line that names both, and up when there is no marker. */
  function Active(lines: seq<string>): Section {
    if lines == [] then Up
    else
      var t := Trim(lines[|lines| - 1]);
      if Contains(t, UpMarker) then Up
      else if Contains(t, DownMarker) then Down
      else Active(lines[..|lines| - 1])
  }

  /** The trimmed non-marker lines that fall in section `sec`, in file order. */
  function Kept(lines: seq<string>, sec: Section): seq<string> {
    if lines == [] then []
    else
      var init := lines[..|lines| - 1];
      var t := Trim(lines[|lines| - 1]);
      Kept(init, sec) + (if !IsMarker(t) && Active(init) == sec then [t] else [])
  }

  /** Every line followed by a line feed, as the scanner accumulates them. */
  function Terminated(ls: seq<string>): string {
    if ls == [] then ""
    else Terminated(ls[..|ls| - 1]) + ls[|ls| - 1] + "\n"
  }

  /** The text readFile returns for section `sec`. */
  function Body(lines: seq<string>, sec: Section): string {
    Trim(Terminated(Kept(lines, sec)))
  }

  /** What readFile returns: the up and the down section. */
  datatype Sections = Sections(up: string, down: string)

  function Parse(lines: seq<string>): Sections {
    Sections(Body(lines, Up), Body(lines, Down))
  }

  /** What readFile returns for every file that can be opened. */
  function ParseAll(contents: map<string, seq<string>>): (r: map<string, Sections>)
    ensures r.Keys == contents.Keys
    ensures forall n | n in contents :: r[n] == Parse(contents[n])
  {
    map n | n in contents :: Parse(contents[n])
  }

  lemma ActiveSnoc(lines: seq<string>, x: string)
    ensures Active(lines + [x])
            == if Contains(Trim(x), UpMarker) then Up
               else if Contains(Trim(x), DownMarker) then Down
               else Active(lines)
  {
    assert (lines + [x])[..|lines|] == lines;
  }

  lemma KeptSnoc(lines: seq<string>, x: string, sec: Section)
    ensures Kept(lines + [x], sec)
            == Kept(lines, sec) + (if !IsMarker(Trim(x)) && Active(lines) == sec then [Trim(x)] else [])
  {
    assert (lines + [x])[..|lines|] == lines;
  }

  lemma TerminatedSnoc(ls: seq<string>, x: string)
    ensures Terminated(ls + [x]) == Terminated(ls) + x + "\n"
  {
    assert (ls + [x])[..|ls|] == ls;
  }

  /** The accumulated text is the lines joined, plus one final line feed. */
  lemma {:induction false} TerminatedJoin(ls: seq<string>)
    requires ls != []
    ensures Terminated(ls) == JoinLines(ls) + "\n"
  {
    if |ls| > 1 {
      var init := ls[..|ls| - 1];
      TerminatedJoin(init);
      JoinSnoc(init, ls[|ls| - 1]);
      assert init + [ls[|ls| - 1]] == ls;
    } else {
      assert ls[..0] == [];
    }
  }

  /** One scanner step: what a line adds to each section and where it leaves the flag. */
  lemma ScanStep(prefix: seq<string>, x: string)
    ensures var t := Trim(x);
            var kept := !Contains(t, UpMarker) && !Contains(t, DownMarker);
            && Active(prefix + [x]) == (if Contains(t, UpMarker) then Up
                                        else if Contains(t, DownMarker) then Down
                                        else Active(prefix))
            && Terminated(Kept(prefix + [x], Up))
               == Terminated(Kept(prefix, Up)) + (if kept && Active(prefix) == Up then t + "\n" else "")
            && Terminated(Kept(prefix + [x], Down))
               == Terminated(Kept(prefix, Down)) + (if kept && Active(prefix) == Down then t + "\n" else "")
  {
    ActiveSnoc(prefix, x);
    TerminatedStep(prefix, x, Up);
    TerminatedStep(prefix, x, Down);
  }

  lemma TerminatedStep(prefix: seq<string>, x: string, sec: Section)
    ensures Terminated(Kept(prefix + [x], sec))
            == Terminated(Kept(prefix, sec)) + (if !IsMarker(Trim(x)) && Active(prefix) == sec then Trim(x) + "\n" else "")
  {
    var t := Trim(x);
    var k := Kept(prefix, sec);
    KeptSnoc(prefix, x, sec);
    if !IsMarker(t) && Active(prefix) == sec {
      TerminatedSnoc(k, t);
      Associative(Terminated(k), t, "\n");
    } else {
      assert k + [] == k;
      assert Terminated(k) + "" == Terminated(k);
    }
  }

  /** readFile on a file already split into lines: returns (up, down). */
  method ReadFile(lines: seq<string>) returns (up: string, down: string)
    ensures up == Body(lines, Up) && down == Body(lines, Down)
    ensures up == [] || (!IsCut(up[0]) && !IsCut(up[|up| - 1]))
    ensures down == [] || (!IsCut(down[0]) && !IsCut(down[|down| - 1]))

  {
    up, down := "", "";
    var flg := 0;
    for i := 0 to |lines|
      invariant up == Terminated(Kept(lines[..i], Up))
      invariant down == Terminated(Kept(lines[..i], Down))
      invariant flg == if Active(lines[..i]) == Up then 0 else 1
    {
      assert lines[..i + 1] == lines[..i] + [lines[i]];
      ScanStep(lines[..i], lines[i]);
      var txt := Trim(lines[i]);
      if Contains(txt, UpMarker) {
        flg := 0;
      } else if Contains(txt, DownMarker) {
        flg := 1;
      } else {
        if flg == 0 {
          up := up + txt + "\n";
        } else if flg == 1 {
          down := down + txt + "\n";
        }
      }
    }
    assert lines[..|lines|] == lines;
    up := Trim(up);
    down := Trim(down);
  }

  // ---------------------------------------------------------------------
  // Properties of the scanner.

  /** A kept line: trimmed text that is not a marker line. */
  predicate Plain(t: string) {
    !IsMarker(t) && Trim(t) == t
  }

  /** Kept lines are trimmed and are not marker lines. */
  lemma {:induction false} KeptPlain(lines: seq<string>, sec: Section)
    ensures forall t | t in Kept(lines, sec) :: Plain(t)
  {
    if lines != [] {
      var init := lines[..|lines| - 1];
      KeptPlain(init, sec);
      TrimTwice(lines[|lines| - 1]);
    }
  }

  /** An occurrence of a word without line feeds in the accumulated text lies in one line. */
  lemma {:induction false} ContainsTerminated(ls: seq<string>, w: string)
    requires w != [] && '\n' !in w
    ensures Contains(Terminated(ls), w) ==> exists k | 0 <= k < |ls| :: Contains(ls[k], w)
  {
    if Contains(Terminated(ls), w) {
      var init := ls[..|ls| - 1];
      var last := ls[|ls| - 1];
      var front := Terminated(init);
      var s := Terminated(ls);
      assert s == front + last + "\n";
      var i :| 0 <= i <= |s| - |w| && OccursAt(s, w, i);
      forall j | i <= j < i + |w| ensures s[j] != '\n' {
        assert s[j] == s[i..i + |w|][j - i];
      }
      assert s[|s| - 1] == '\n';
      if init != [] {
        assert front[|front| - 1] == '\n';
        assert s[|front| - 1] == '\n';
      }
      if i + |w| <= |front| {
        assert front[i..i + |w|] == s[i..i + |w|];
        assert OccursAt(front, w, i);
        ContainsTerminated(init, w);
        var k :| 0 <= k < |init| && Contains(init[k], w);
        assert init[k] == ls[k];
      } else {
        assert last[i - |front|..i - |front| + |w|] == s[i..i + |w|];
        assert OccursAt(last, w, i - |front|);
      }
    }
  }

  /** Neither marker word survives into either section. */
  lemma NoMarkerInBody(lines: seq<string>, sec: Section)
    ensures !Contains(Body(lines, sec), UpMarker)
    ensures !Contains(Body(lines, sec), DownMarker)
  {
    var ls := Kept(lines, sec);
    KeptPlain(lines, sec);
    TrimIsPiece(Terminated(ls));
    forall w | w == UpMarker || w == DownMarker
      ensures !Contains(Body(lines, sec), w)
    {
      assert '\n' !in w by { AbsentChar(w, "\n", '\n'); }
      ContainsTransitive(Terminated(ls), Body(lines, sec), w);
      ContainsTerminated(ls, w);
      assert forall k | 0 <= k < |ls| :: !Contains(ls[k], w) by {
        forall k | 0 <= k < |ls| ensures !Contains(ls[k], w) {
          assert ls[k] in ls;
        }
      }
    }
  }

  /** Marker-free lines appended after `a` go to the section in force after `a`. */
  lemma {:induction false} KeptAppend(a: seq<string>, b: seq<string>, sec: Section)
    requires MarkerFree(b)
    ensures Active(a + b) == Active(a)
    ensures Kept(a + b, sec) == Kept(a, sec) + (if Active(a) == sec then TrimAll(b) else [])
  {
    if b != [] {
      var b', x := b[..|b| - 1], b[|b| - 1];
      MarkerFreeSnoc(b);
      KeptAppend(a, b', sec);
      KeptAppendLast(a, b', x, sec);
      SplitLast(a, b);
    } else {
      assert a + b == a;
    }
  }

  lemma MarkerFreeSnoc(b: seq<string>)
    requires MarkerFree(b) && b != []
    ensures MarkerFree(b[..|b| - 1]) && !IsMarker(Trim(b[|b| - 1]))
    ensures TrimAll(b) == TrimAll(b[..|b| - 1]) + [Trim(b[|b| - 1])]
  {
  }

  lemma KeptAppendLast(a: seq<string>, b': seq<string>, x: string, sec: Section)
    requires !IsMarker(Trim(x))
    requires Active(a + b') == Active(a)
    requires Kept(a + b', sec) == Kept(a, sec) + (if Active(a) == sec then TrimAll(b') else [])
    ensures Active((a + b') + [x]) == Active(a)
    ensures Kept((a + b') + [x], sec) == Kept(a, sec) + (if Active(a) == sec then TrimAll(b') + [Trim(x)] else [])
  {
    ActiveSnoc(a + b', x);
    KeptSnoc(a + b', x, sec);
    if Active(a) == sec {
      Associative(Kept(a, sec), TrimAll(b'), [Trim(x)]);
    }
  }

  /** A file without marker lines is all up section. */
  lemma NoMarkersAllUp(lines: seq<string>)
    requires MarkerFree(lines)
    ensures Kept(lines, Up) == TrimAll(lines)
    ensures Kept(lines, Down) == []
    ensures Body(lines, Down) == ""
  {
    KeptAppend([], lines, Up);
    KeptAppend([], lines, Down);
    assert [] + lines == lines;
  }

  /** A marker line naming `migrate_up` switches to up even when it also names `migrate_down`. */
  lemma UpMarkerWins(before: seq<string>, marker: string, after: seq<string>, sec: Section)
    requires Contains(Trim(marker), UpMarker)
    requires MarkerFree(after)
    ensures Kept(before + [marker] + after, sec)
            == Kept(before, sec) + (if sec == Up then TrimAll(after) else [])
  {
    var a := before + [marker];
    assert a[..|a| - 1] == before;
    KeptAppend(a, after, sec);
  }

  /** The layout the templates use: an up marker, the up lines, a down marker, the down lines. */
  lemma Layout(upMark: string, ups: seq<string>, downMark: string, downs: seq<string>)
    requires Contains(Trim(upMark), UpMarker)
    requires !Contains(Trim(downMark), UpMarker) && Contains(Trim(downMark), DownMarker)
    requires MarkerFree(ups) && MarkerFree(downs)
    ensures Kept([upMark] + ups + [downMark] + downs, Up) == TrimAll(ups)
    ensures Kept([upMark] + ups + [downMark] + downs, Down) == TrimAll(downs)
  {
    var a := [upMark] + ups;
    LayoutUp(upMark, ups);
    var b := a + [downMark];
    assert b[..|b| - 1] == a;
    assert Active(b) == Down && Kept(b, Up) == TrimAll(ups) && Kept(b, Down) == [];
    KeptAppend(b, downs, Up);
    KeptAppend(b, downs, Down);
    assert b + downs == [upMark] + ups + [downMark] + downs;
  }

  /** The up marker and the up lines: up is active and holds exactly the trimmed up lines. */
  lemma LayoutUp(upMark: string, ups: seq<string>)
    requires Contains(Trim(upMark), UpMarker) && MarkerFree(ups)
    ensures Active([upMark] + ups) == Up
    ensures Kept([upMark] + ups, Up) == TrimAll(ups) && Kept([upMark] + ups, Down) == []
  {
    var a := [upMark];
    assert a[..0] == [] && IsMarker(Trim(upMark));
    assert Kept(a, Up) == Kept([], Up) && Kept(a, Down) == Kept([], Down);
    assert Active(a) == Up && Kept(a, Up) == [] && Kept(a, Down) == [];
    KeptAppend(a, ups, Up);
    KeptAppend(a, ups, Down);
  }

  /** Re-reading the up section alone, behind its marker, gives the same up section. */
  lemma ReparseUp(lines: seq<string>, upMark: string)
    requires Contains(Trim(upMark), UpMarker)
    ensures Body([upMark] + Kept(lines, Up), Up) == Body(lines, Up)
  {
    KeptPlain(lines, Up);
    BehindUpMarker(upMark, Kept(lines, Up));
  }

  /** Plain lines behind an up marker are kept, as they are, in the up section. */
  lemma BehindUpMarker(upMark: string, ls: seq<string>)
    requires Contains(Trim(upMark), UpMarker)
    requires forall t | t in ls :: Plain(t)
    ensures Kept([upMark] + ls, Up) == ls
  {
    PlainLines(ls);
    UpMarkerWins([], upMark, ls, Up);
    assert [] + [upMark] + ls == [upMark] + ls;
    assert Kept([], Up) == [];
  }

  /** Lines that are all plain are marker-free and trimmed already. */
  lemma PlainLines(ls: seq<string>)
    requires forall t | t in ls :: Plain(t)
    ensures MarkerFree(ls) && TrimAll(ls) == ls
  {
    forall k | 0 <= k < |ls| ensures Plain(ls[k]) {
      assert ls[k] in ls;
    }
  }

  /** Every non-marker line lands in exactly one of the two sections. */
  lemma {:induction false} Partition(lines: seq<string>)
    ensures |Kept(lines, Up)| + |Kept(lines, Down)| == NonMarkerCount(lines)
  {
    if lines != [] {
      Partition(lines[..|lines| - 1]);
    }
  }

  function NonMarkerCount(lines: seq<string>): nat {
    if lines == [] then 0
    else NonMarkerCount(lines[..|lines| - 1]) + (if IsMarker(Trim(lines[|lines| - 1])) then 0 else 1)
  }

  // ---------------------------------------------------------------------
  // A section read back from its own text

  /** The lines with the leading blank ones dropped. */
  function DropLead(ls: seq<string>): (r: seq<string>)
    ensures forall t | t in r :: t in ls
    ensures r == [] || r[0] != ""
  {
    if ls != [] && ls[0] == "" then DropLead(ls[1..]) else ls
  }

  /** The lines with the trailing blank ones dropped. */
  function DropTrail(ls: seq<string>): (r: seq<string>)
    ensures forall t | t in r :: t in ls
    ensures |r| <= |ls| && r == ls[..|r|]
    ensures r == [] || r[|r| - 1] != ""
  {
    if ls != [] && ls[|ls| - 1] == "" then DropTrail(ls[..|ls| - 1]) else ls
  }

  /** Accumulated lines followed by one more line without its line feed are the lines joined. */
  lemma {:induction false} TerminatedThen(ls: seq<string>, x: string)
    ensures Terminated(ls) + x == JoinLines(ls + [x])
    decreases |ls|
  {
    if ls != [] {
      var init, y := ls[..|ls| - 1], ls[|ls| - 1];
      TerminatedThen(init, y);
      JoinSnoc(init + [y], x);
      assert init + [y] == ls;
    } else {
      assert [] + [x] == [x];
    }
  }

  /** Trimming the front of accumulated lines drops the leading blank ones. */
  lemma {:induction false} TrimLeftTerminated(ls: seq<string>)
    requires forall t | t in ls :: Plain(t)
    ensures TrimLeft(Terminated(ls)) == Terminated(DropLead(ls))
    decreases |ls|
  {
    if ls != [] {
      TerminatedFront(ls);
      if ls[0] == "" {
        var rest := Terminated(ls[1..]);
        assert Terminated(ls) == "\n" + rest;
        assert ("\n" + rest)[1..] == rest;
        TrimLeftTerminated(ls[1..]);
      } else {
        assert Plain(ls[0]);
        assert Terminated(ls)[0] == ls[0][0];
      }
    }
  }

  /** The accumulated text of lines starts with the first line and its line feed. */
  lemma {:induction false} TerminatedFront(ls: seq<string>)
    requires ls != []
    ensures Terminated(ls) == ls[0] + "\n" + Terminated(ls[1..])
    decreases |ls|
  {
    if |ls| > 1 {
      var init, x := ls[..|ls| - 1], ls[|ls| - 1];
      var mid := init[1..];
      TerminatedFront(init);
      assert ls[1..] == mid + [x];
      TerminatedSnoc(mid, x);
      assert init[0] == ls[0];
      calc {
        Terminated(ls);
        Terminated(init) + x + "\n";
        init[0] + "\n" + Terminated(mid) + x + "\n";
        { Associative(init[0] + "\n", Terminated(mid) + x, "\n");
          Associative(init[0] + "\n", Terminated(mid), x); }
        ls[0] + "\n" + (Terminated(mid) + x + "\n");
        ls[0] + "\n" + Terminated(ls[1..]);
      }
    } else {
      assert ls[..0] == [] && ls[1..] == [];
    }
  }

  /** Trimming the back of accumulated lines drops the trailing blank ones and the
      last line feed, leaving the rest joined. */
  lemma {:induction false} TrimRightTerminated(ls: seq<string>)
    requires forall t | t in ls :: Plain(t)
    ensures TrimRight(Terminated(ls)) == JoinLines(DropTrail(ls))
    decreases |ls|
  {
    if ls != [] {
      var init, x := ls[..|ls| - 1], ls[|ls| - 1];
      var t := Terminated(init) + x;
      assert Terminated(ls) == t + "\n";
      assert (t + "\n")[..|t|] == t;
      if x == "" {
        assert t == Terminated(init);
        TrimRightTerminated(init);
      } else {
        assert Plain(x);
        assert t[|t| - 1] == x[|x| - 1];
        TerminatedThen(init, x);
        assert init + [x] == ls;
      }
    }
  }

  /** A section's text is its kept lines, blank ones at either end dropped, joined. */
  lemma BodyJoin(ls: seq<string>)
    requires forall t | t in ls :: Plain(t)
    ensures Trim(Terminated(ls)) == JoinLines(DropTrail(DropLead(ls)))
  {
    TrimLeftTerminated(ls);
    TrimRightTerminated(DropLead(ls));
  }

  /** Every kept line is the trimmed text of some line. */
  lemma {:induction false} KeptTrimmed(lines: seq<string>, sec: Section)
    ensures forall t | t in Kept(lines, sec) :: exists m | 0 <= m < |lines| :: t == Trim(lines[m])
  {
    if lines != [] {
      var init := lines[..|lines| - 1];
      KeptTrimmed(init, sec);
      forall t | t in Kept(lines, sec) ensures exists m | 0 <= m < |lines| :: t == Trim(lines[m]) {
        if t in Kept(init, sec) {
          var m :| 0 <= m < |init| && t == Trim(init[m]);
          assert lines[m] == init[m];
        } else {
          assert t == Trim(lines[|lines| - 1]);
        }
      }
    }
  }

  /** Writing the up section back behind an up marker and reading it again gives the
      same up section, when no trimmed line holds a line feed or ends in a carriage return. */
  lemma ReparseUpText(lines: seq<string>, upMark: string)
    requires Contains(Trim(upMark), UpMarker)
    requires forall k | 0 <= k < |lines| :: PlainLine(Trim(lines[k]))
    ensures Body([upMark] + ScanLines(Body(lines, Up)), Up) == Body(lines, Up)
  {
    var ls := Kept(lines, Up);
    KeptPlain(lines, Up);
    KeptTrimmed(lines, Up);
    BodyJoin(ls);
    var l := DropLead(ls);
    var s := DropTrail(l);
    forall k | 0 <= k < |s| ensures PlainLine(s[k]) {
      assert s[k] in ls;
      var m :| 0 <= m < |lines| && s[k] == Trim(lines[m]);
    }
    ScanJoinRoundTrip(s);
    BehindUpMarker(upMark, s);
    BodyJoin(s);
    assert s == [] || s[0] == l[0];
  }
}
