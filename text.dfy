// The parts of Go's `strings` package and of `bufio.ScanLines` that the
// migration engine relies on, modelled on `string` (a sequence of chars).

module Text {

  /** strings.Contains: `t` occurs in `s` as a contiguous piece. */
  predicate Contains(s: string, t: string) {
    exists i | 0 <= i <= |s| - |t| :: OccursAt(s, t, i)
  }

  /** `t` occurs in `s` starting at index `i`. */
  predicate OccursAt(s: string, t: string, i: int) {
    0 <= i <= |s| - |t| && s[i..i + |t|] == t
  }

  /** A character that occurs in `t` but nowhere in `s` rules out an occurrence of `t`. */
  lemma {:induction false} AbsentChar(s: string, t: string, c: char)
    requires c in t && c !in s
    ensures !Contains(s, t)
  {
    var j :| 0 <= j < |t| && t[j] == c;
    forall i | 0 <= i <= |s| - |t| ensures !OccursAt(s, t, i) {
      assert s[i..i + |t|][j] == s[i + j] != c;
    }
  }

  /** An occurrence inside a piece of `s` is an occurrence in `s`. */
  lemma ContainsTransitive(s: string, piece: string, t: string)
    ensures Contains(s, piece) && Contains(piece, t) ==> Contains(s, t)
  {
    if Contains(s, piece) && Contains(piece, t) {
      var i :| 0 <= i <= |s| - |piece| && OccursAt(s, piece, i);
      var j :| 0 <= j <= |piece| - |t| && OccursAt(piece, t, j);
      forall k | 0 <= k < |t| ensures s[i + j..i + j + |t|][k] == t[k] {
        assert t[k] == piece[j..j + |t|][k] == piece[j + k] == s[i..i + |piece|][j + k];
      }
      assert OccursAt(s, t, i + j);
    }
  }

  /** Concatenation regrouped; stated once so that long proofs can cite it. */
  lemma Associative<T>(a: seq<T>, b: seq<T>, c: seq<T>)
    ensures a + (b + c) == a + b + c
  {
  }

  /** Appending a non-empty `b` is appending its front, then its last element. */
  lemma SplitLast<T>(a: seq<T>, b: seq<T>)
    requires b != []
    ensures a + b == (a + b[..|b| - 1]) + [b[|b| - 1]]
  {
  }

  // ---------------------------------------------------------------------
  // strings.Trim(s, " \n"): the cut set of the engine is space and line feed.

  predicate IsCut(c: char) { c == ' ' || c == '\n' }

  function TrimLeft(s: string): string {
    if |s| > 0 && IsCut(s[0]) then TrimLeft(s[1..]) else s
  }

  lemma {:induction false} TrimLeftSpec(s: string)
    ensures var r := TrimLeft(s);
            && |r| <= |s| && r == s[|s| - |r|..]
            && (forall k | 0 <= k < |s| - |r| :: IsCut(s[k]))
            && (r == [] || !IsCut(r[0]))
  {
    if |s| > 0 && IsCut(s[0]) {
      var r := TrimLeft(s[1..]);
      TrimLeftSpec(s[1..]);
      assert TrimLeft(s) == r;
      assert s[1..][|s| - 1 - |r|..] == s[|s| - |r|..];
      forall k | 0 <= k < |s| - |r| ensures IsCut(s[k]) {
        if k > 0 {
          assert s[k] == s[1..][k - 1];
        }
      }
    }
  }

  function TrimRight(s: string): string {
    if |s| > 0 && IsCut(s[|s| - 1]) then TrimRight(s[..|s| - 1]) else s
  }

  lemma {:induction false} TrimRightSpec(s: string)
    ensures var r := TrimRight(s);
            && |r| <= |s| && r == s[..|r|]
            && (forall k | |r| <= k < |s| :: IsCut(s[k]))
            && (r == [] || !IsCut(r[|r| - 1]))
  {
    if |s| > 0 && IsCut(s[|s| - 1]) {
      var r := TrimRight(s[..|s| - 1]);
      TrimRightSpec(s[..|s| - 1]);
      assert TrimRight(s) == r;
      assert s[..|s| - 1][..|r|] == s[..|r|];
      forall k | |r| <= k < |s| ensures IsCut(s[k]) {
        if k < |s| - 1 {
          assert s[k] == s[..|s| - 1][k];
        }
      }
    }
  }

  /** Removes every leading and trailing space and line feed. */
  function Trim(s: string): (r: string)
    ensures r == [] || (!IsCut(r[0]) && !IsCut(r[|r| - 1]))
  {
    TrimLeftSpec(s);
    TrimRightSpec(TrimLeft(s));
    TrimRight(TrimLeft(s))
  }

  /** Trim removes nothing but cut characters, and only at the two ends. */
  lemma TrimCharacterized(s: string)
    ensures exists a ::
              && OccursAt(s, Trim(s), a)
              && (forall k | 0 <= k < a :: IsCut(s[k]))
              && (forall k | a + |Trim(s)| <= k < |s| :: IsCut(s[k]))
  {
    var l := TrimLeft(s);
    TrimLeftSpec(s);
    TrimRightSpec(l);
    var r := TrimRight(l);
    var a := |s| - |l|;
    assert s[a..a + |r|] == l[..|r|];
    forall k | a + |r| <= k < |s| ensures IsCut(s[k]) {
      assert s[k] == l[k - a];
    }
    assert r == Trim(s);
    assert OccursAt(s, Trim(s), a);
    assert forall k | 0 <= k < a :: IsCut(s[k]);
  }

  /** Trimming keeps a contiguous piece of the input. */
  lemma TrimIsPiece(s: string)
    ensures Contains(s, Trim(s))
  {
    TrimCharacterized(s);
  }

  /** A string with no cut character at either end is left alone by Trim. */
  lemma {:induction false} TrimKeeps(s: string)
    requires s == [] || (!IsCut(s[0]) && !IsCut(s[|s| - 1]))
    ensures Trim(s) == s
  {
    if s != [] {
      assert TrimLeft(s) == s;
      assert TrimRight(s) == s;
    }
  }

  /** Trim is idempotent. */
  lemma TrimTwice(s: string)
    ensures Trim(Trim(s)) == Trim(s)
  {
    TrimKeeps(Trim(s));
  }

  // ---------------------------------------------------------------------
  // strings.ToLower restricted to ASCII, and strings.ReplaceAll of one
  // character by another.

  predicate IsUpper(c: char) { 'A' <= c <= 'Z' }

  function LowerChar(c: char): (r: char)
    ensures !IsUpper(r)
    ensures IsUpper(c) ==> r as int == c as int + 32
    ensures !IsUpper(c) ==> r == c
  {
    if IsUpper(c) then (c as int + 32) as char else c
  }

  function ToLower(s: string): (r: string)
    ensures |r| == |s|
    ensures forall k | 0 <= k < |s| :: r[k] == LowerChar(s[k])
  {
    if s == [] then [] else [LowerChar(s[0])] + ToLower(s[1..])
  }

  function ReplaceChar(s: string, old_: char, new_: char): (r: string)
    ensures |r| == |s|
    ensures forall k | 0 <= k < |s| :: r[k] == (if s[k] == old_ then new_ else s[k])
  {
    if s == [] then [] else [if s[0] == old_ then new_ else s[0]] + ReplaceChar(s[1..], old_, new_)
  }

  // ---------------------------------------------------------------------
  // bufio.ScanLines: a file's bytes become lines split at '\n', each with one
  // trailing '\r' dropped; a final line without '\n' counts if it is not empty.

  function DropCR(s: string): string {
    if |s| > 0 && s[|s| - 1] == '\r' then s[..|s| - 1] else s
  }

  /** The index of the first line feed of `s`, or |s| when there is none. */
  function LineEnd(s: string): (i: nat)
    ensures i <= |s|
    ensures forall k | 0 <= k < i :: s[k] != '\n'
    ensures i < |s| ==> s[i] == '\n'
  {
    if s == [] || s[0] == '\n' then 0 else 1 + LineEnd(s[1..])
  }

  function ScanLines(data: string): seq<string>
    decreases |data|
  {
    if data == [] then []
    else
      var i := LineEnd(data);
      if i == |data| then [DropCR(data)]
      else [DropCR(data[..i])] + ScanLines(data[i + 1..])
  }

  /** The text of `lines` written one after the other with '\n' between them. */
  function JoinLines(lines: seq<string>): string {
    if lines == [] then ""
    else if |lines| == 1 then lines[0]
    else lines[0] + "\n" + JoinLines(lines[1..])
  }

  predicate PlainLine(l: string) {
    '\n' !in l && (l == [] || l[|l| - 1] != '\r')
  }

  lemma {:induction false} JoinSnoc(ls: seq<string>, x: string)
    requires ls != []
    ensures JoinLines(ls + [x]) == JoinLines(ls) + "\n" + x
  {
    assert (ls + [x])[1..] == ls[1..] + [x];
    if |ls| > 1 {
      JoinSnoc(ls[1..], x);
    }
  }

  /** One trailing line feed after text with no cut character at its ends is trimmed off. */
  lemma TrimNewline(s: string)
    requires s != [] && !IsCut(s[0]) && !IsCut(s[|s| - 1])
    ensures Trim(s + "\n") == s
  {
    var t := s + "\n";
    assert TrimLeft(t) == t;
    assert t[..|t| - 1] == s;
    assert TrimRight(s) == s;
  }

  /** Scanning what JoinLines wrote gives the lines back, provided no line holds a
      line feed or ends in a carriage return and the last line is not empty. */
  lemma {:induction false} ScanJoinRoundTrip(lines: seq<string>)
    requires forall k | 0 <= k < |lines| :: PlainLine(lines[k])
    requires lines == [] || lines[|lines| - 1] != []
    ensures ScanLines(JoinLines(lines)) == lines
  {
    if |lines| == 1 {
      LineEndNone(lines[0]);
    } else if |lines| > 1 {
      ScanFirstLine(lines[0], JoinLines(lines[1..]));
      ScanJoinRoundTrip(lines[1..]);
      assert lines == [lines[0]] + lines[1..];
    }
  }

  /** A plain line followed by a line feed scans as that line, then the rest. */
  lemma ScanFirstLine(l: string, rest: string)
    requires PlainLine(l)
    ensures ScanLines(l + "\n" + rest) == [l] + ScanLines(rest)
  {
    var data := l + "\n" + rest;
    assert data == l + ("\n" + rest);
    LineEndAt(l, "\n" + rest);
    assert LineEnd(data) == |l| < |data|;
    assert data[..|l|] == l && DropCR(l) == l;
    assert data[|l| + 1..] == rest;
    assert ScanLines(data) == [DropCR(data[..|l|])] + ScanLines(data[|l| + 1..]);
  }

  lemma {:induction false} LineEndNone(s: string)
    requires '\n' !in s
    ensures LineEnd(s) == |s|
  {
    if s != [] {
      LineEndNone(s[1..]);
    }
  }

  lemma {:induction false} LineEndAt(l: string, rest: string)
    requires '\n' !in l && rest != [] && rest[0] == '\n'
    ensures LineEnd(l + rest) == |l|
  {
    if l != [] {
      assert (l + rest)[1..] == l[1..] + rest;
      LineEndAt(l[1..], rest);
    }
  }
}
