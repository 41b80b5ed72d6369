// The inputs the dispatcher reads before it touches the database: positional
// arguments (flag.Arg), environment variables (getEnv in cmd/cmd.go), the
// registered SQL drivers, and the step count of `rollback` (strconv.Atoi).

module Settings {

  // ---------------------------------------------------------------------
  // flag.Arg and the action

  /** flag.Arg(i): the i-th positional argument, or "" when there are fewer. */
  function Arg(args: seq<string>, i: nat): (r: string)
    ensures i < |args| ==> r == args[i]
    ensures i >= |args| ==> r == ""
  {
    if i < |args| then args[i] else ""
  }

  /** The action: the first positional argument, `create` when it is missing or empty. */
  function Action(args: seq<string>): (r: string)
    ensures r != ""
    ensures Arg(args, 0) != "" ==> r == Arg(args, 0)
    ensures Arg(args, 0) == "" ==> r == "create"
    ensures r == "create" <==> Arg(args, 0) == "" || Arg(args, 0) == "create"
  {
    var a := Arg(args, 0);
    if a == "" then "create" else a
  }

  // ---------------------------------------------------------------------
  // getEnv and the configuration it yields

  /** getEnv: the variable's value, or the default when it is unset or set to "". */
  function GetEnv(env: map<string, string>, key: string, def: string): (r: string)
    ensures r == def <==> key !in env || env[key] == "" || env[key] == def
    ensures key in env && env[key] != "" ==> r == env[key]
  {
    if key !in env || env[key] == "" then def else env[key]
  }

  /** The drivers the binary links in: go-sql-driver/mysql, lib/pq and go-sqlite3. */
  predicate Registered(driver: string) {
    driver == "mysql" || driver == "postgres" || driver == "sqlite3"
  }

  /** DB_DRIVER, mysql by default. */
  function Driver(env: map<string, string>): (r: string)
    ensures "DB_DRIVER" !in env || env["DB_DRIVER"] == "" ==> r == "mysql" && Registered(r)
    ensures "DB_DRIVER" in env && env["DB_DRIVER"] != "" ==> r == env["DB_DRIVER"]
  {
    GetEnv(env, "DB_DRIVER", "mysql")
  }

  /** DB_QUERY, the data source name, empty by default. */
  function Dsn(env: map<string, string>): (r: string)
    ensures "DB_QUERY" in env ==> r == env["DB_QUERY"]
    ensures "DB_QUERY" !in env ==> r == ""
  {
    GetEnv(env, "DB_QUERY", "")
  }

  // ---------------------------------------------------------------------
  // strconv.Atoi, whose error the rollback branch drops

  const MaxInt64: int := 0x7fff_ffff_ffff_ffff
  const MinInt64: int := -0x8000_0000_0000_0000

  predicate IsDigit(c: char) { '0' <= c <= '9' }

  predicate AllDigits(s: string) {
    forall k | 0 <= k < |s| :: IsDigit(s[k])
  }

  /** The value of a string of decimal digits, most significant first. */
  function DigitsValue(s: string): (n: nat)
    requires AllDigits(s)
  {
    if s == [] then 0
    else DigitsValue(s[..|s| - 1]) * 10 + (s[|s| - 1] as int - '0' as int)
  }

  /** A magnitude with a sign, saturated to the 64-bit range as ParseInt reports it. */
  function Saturate(negative: bool, magnitude: nat): (r: int)
    ensures MinInt64 <= r <= MaxInt64
    ensures !negative && magnitude <= MaxInt64 ==> r == magnitude
    ensures negative && magnitude <= -MinInt64 ==> r == -(magnitude as int)
  {
    if negative then (if magnitude <= -MinInt64 then -(magnitude as int) else MinInt64)
    else (if magnitude <= MaxInt64 then magnitude else MaxInt64)
  }

  const MaxUint64: int := 0xffff_ffff_ffff_ffff

  /** What the digit loop of strconv.ParseUint makes of a text in base 10. */
  datatype UintScan = Parsed(n: nat) | OutOfRange | BadSyntax

  /** The digit loop of strconv.ParseUint, left to right: a character that is not a
      digit is a syntax error, and the first digit that takes the value past the
      largest 64-bit unsigned number is a range error, after which nothing is read. */
  function ScanUint(s: string): UintScan
    decreases |s|
  {
    if s == [] then Parsed(0)
    else
      match ScanUint(s[..|s| - 1])
      case Parsed(n) =>
        if !IsDigit(s[|s| - 1]) then BadSyntax
        else
          var m := n * 10 + (s[|s| - 1] as int - '0' as int);
          if m > MaxUint64 then OutOfRange else Parsed(m)
      case OutOfRange => OutOfRange
      case BadSyntax => BadSyntax
  }

  /** The digit loop reads a digit string in full when its value fits, stops with a
      range error when it does not, and succeeds on nothing but digit strings that fit. */
  lemma {:induction false} ScanDigits(s: string)
    ensures ScanUint(s).Parsed? ==> AllDigits(s) && ScanUint(s).n == DigitsValue(s) <= MaxUint64
    ensures AllDigits(s) && DigitsValue(s) <= MaxUint64 ==> ScanUint(s) == Parsed(DigitsValue(s))
    ensures AllDigits(s) && DigitsValue(s) > MaxUint64 ==> ScanUint(s) == OutOfRange
    decreases |s|
  {
    if s != [] {
      var p := s[..|s| - 1];
      ScanDigits(p);
      assert ScanUint(s).Parsed? ==> AllDigits(s) by {
        if ScanUint(s).Parsed? {
          forall k | 0 <= k < |s| ensures IsDigit(s[k]) {
            if k < |p| { assert s[k] == p[k]; }
          }
        }
      }
      if AllDigits(s) {
        forall k | 0 <= k < |p| ensures IsDigit(p[k]) { assert p[k] == s[k]; }
      }
    }
  }

  /** Once the digit loop has stopped with an error, nothing after it changes that error. */
  lemma {:induction false} ScanStops(p: string, rest: string)
    requires !ScanUint(p).Parsed?
    ensures ScanUint(p + rest) == ScanUint(p)
    decreases |rest|
  {
    if rest != [] {
      var s := p + rest;
      assert s[..|s| - 1] == p + rest[..|rest| - 1];
      ScanStops(p, rest[..|rest| - 1]);
      assert ScanUint(s[..|s| - 1]) == ScanUint(p);
    } else {
      assert p + rest == p;
    }
  }

  /** The text after an optional leading sign, and whether that sign is a minus. */
  function Unsigned(s: string): (d: string)
    requires s != []
    ensures s[0] == '-' || s[0] == '+' ==> [s[0]] + d == s
    ensures s[0] != '-' && s[0] != '+' ==> d == s
  {
    if s[0] == '-' || s[0] == '+' then s[1..] else s
  }

  /** strconv.Atoi with its error ignored, as ParseInt in base 10 at 64 bits computes it:
      an optional sign, then the digit loop; a syntax error gives 0, and a range error
      or a value beyond the signed range gives the bound on the sign's side. */
  function Atoi(s: string): (r: int)
    ensures MinInt64 <= r <= MaxInt64
    ensures AllDigits(s) && s != [] && DigitsValue(s) <= MaxInt64 ==> r == DigitsValue(s)
    ensures AllDigits(s) && s != [] && DigitsValue(s) > MaxInt64 ==> r == MaxInt64
    ensures s == [] ==> r == 0
  {
    if s == [] then 0
    else
      var digits := Unsigned(s);
      ScanDigits(digits);
      if digits == [] then 0
      else
        match ScanUint(digits)
        case Parsed(n) => Saturate(s[0] == '-', n)
        case OutOfRange => Saturate(s[0] == '-', MaxUint64)
        case BadSyntax => 0
  }

  /** A sign (or none) glued to a text that does not itself start with a sign: the
      unsigned part is that text, and the result is negative exactly for a minus. */
  lemma SignedParts(sign: string, d: string)
    requires sign == "" || sign == "-" || sign == "+"
    requires sign != "" || (d != [] && d[0] != '-' && d[0] != '+')
    ensures sign + d != [] && Unsigned(sign + d) == d
    ensures (sign + d)[0] == '-' <==> sign == "-"
  {
    if sign != "" {
      assert (sign + d)[1..] == d;
    }
  }

  /** The rollback step count: the second positional argument, "1" when it is missing. */
  function Steps(args: seq<string>): int {
    var a := Arg(args, 1);
    Atoi(if a == "" then "1" else a)
  }

  /** The decimal spelling of a natural number, as strconv.Itoa writes it. */
  function Decimal(n: nat): (s: string)
    ensures s != [] && AllDigits(s)
    decreases n
  {
    var d := [('0' as int + n % 10) as char];
    if n < 10 then d else Decimal(n / 10) + d
  }

  /** Reading back a decimal spelling gives the number. */
  lemma {:induction false} DigitsDecimal(n: nat)
    ensures DigitsValue(Decimal(n)) == n
    decreases n
  {
    var s := Decimal(n);
    if n >= 10 {
      DigitsDecimal(n / 10);
      assert s[..|s| - 1] == Decimal(n / 10);
    }
  }

  /** Atoi reads back what Itoa writes, for every count that fits in 64 bits. */
  lemma AtoiDecimal(n: nat)
    requires n <= MaxInt64
    ensures Atoi(Decimal(n)) == n
    ensures Atoi("-" + Decimal(n)) == -(n as int)
    ensures Atoi("+" + Decimal(n)) == n
  {
    DigitsDecimal(n);
    var s := Decimal(n);
    assert s[0] != '-' && s[0] != '+' by { assert IsDigit(s[0]); }
    assert ("-" + s)[1..] == s;
    assert ("+" + s)[1..] == s;
  }

  /** A character that is not a digit after digits that fit is a syntax error. */
  lemma StopsAtLetter(p: string, c: char)
    requires AllDigits(p) && DigitsValue(p) <= MaxUint64 && !IsDigit(c)
    ensures ScanUint(p + [c]) == BadSyntax
  {
    var q := p + [c];
    assert q[..|q| - 1] == p;
    ScanDigits(p);
  }

  /** A character that is not a digit, reached before the value overflows, makes the
      whole text read as 0, a sign before the digits or not. */
  lemma AtoiRejects(sign: string, p: string, rest: string)
    requires sign == "" || sign == "-" || sign == "+"
    requires AllDigits(p) && DigitsValue(p) <= MaxUint64
    requires rest != [] && !IsDigit(rest[0])
    requires sign != "" || p != [] || (rest[0] != '-' && rest[0] != '+')
    ensures Atoi(sign + (p + rest)) == 0
  {
    RejectScan(p, rest);
    var d := p + rest;
    assert sign != "" || (d != [] && d[0] != '-' && d[0] != '+') by {
      if sign == "" && p == [] {
        assert d[0] == rest[0];
      } else if sign == "" {
        assert d[0] == p[0] && IsDigit(p[0]);
      }
    }
    SignedParts(sign, d);
    AtoiSyntax(sign + d);
  }

  /** The digit loop stops with a syntax error at the first letter after digits that fit. */
  lemma RejectScan(p: string, rest: string)
    requires AllDigits(p) && DigitsValue(p) <= MaxUint64
    requires rest != [] && !IsDigit(rest[0])
    ensures ScanUint(p + rest) == BadSyntax
  {
    var q := p + [rest[0]];
    StopsAtLetter(p, rest[0]);
    ScanStops(q, rest[1..]);
    assert q + rest[1..] == p + rest;
  }

  /** A syntax error from the digit loop makes Atoi give 0. */
  lemma AtoiSyntax(s: string)
    requires s != [] && ScanUint(Unsigned(s)) == BadSyntax
    ensures Atoi(s) == 0
  {
  }

  /** A run of digits whose value does not fit in 64 bits reads as the bound on the
      sign's side; past the unsigned range, whatever follows the digits is not read. */
  lemma AtoiSaturates(sign: string, p: string, rest: string)
    requires sign == "" || sign == "-" || sign == "+"
    requires AllDigits(p) && DigitsValue(p) > MaxInt64
    requires rest == [] || DigitsValue(p) > MaxUint64
    ensures Atoi(sign + (p + rest)) == if sign == "-" then MinInt64 else MaxInt64
  {
    assert p != [];
    assert IsDigit(p[0]);
    assert (p + rest)[0] == p[0];
    SignedParts(sign, p + rest);
    ScanDigits(p);
    if DigitsValue(p) > MaxUint64 {
      ScanStops(p, rest);
    } else {
      assert p + rest == p;
    }
  }

  /** No argument means one step; a word that is not a number means zero steps. */
  lemma StepsDefaults(args: seq<string>)
    ensures Arg(args, 1) == "" ==> Steps(args) == 1
    ensures Arg(args, 1) != "" && !IsDigit(Arg(args, 1)[0]) && Arg(args, 1)[0] != '-' && Arg(args, 1)[0] != '+'
            ==> Steps(args) == 0
  {
    var a := Arg(args, 1);
    if a == "" {
      assert DigitsValue("1") == DigitsValue("") * 10 + 1;
    } else if !IsDigit(a[0]) && a[0] != '-' && a[0] != '+' {
      AtoiRejects("", "", a);
      assert "" + ("" + a) == a;
    }
  }
}
