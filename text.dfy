/** The JavaScript string operations the program relies on, defined on `seq<char>`:
    `String.prototype.trim`, `startsWith`, `split('\n')`, and the decimal rendering of a
    non-negative integer in a template literal. */
module Text {

  /** The characters `trim` removes: ECMAScript WhiteSpace (including the Unicode Zs
      space separators) and LineTerminator. */
  predicate IsJsWhitespace(c: char) {
    || c == '\t' || c == '\n' || c == '\U{000B}' || c == '\U{000C}' || c == '\r'
    || c == ' ' || c == '\U{00A0}' || c == '\U{1680}'
    || ('\U{2000}' <= c <= '\U{200A}')
    || c == '\U{2028}' || c == '\U{2029}' || c == '\U{202F}' || c == '\U{205F}'
    || c == '\U{3000}' || c == '\U{FEFF}'
  }

  /** `s` with its leading whitespace removed: a suffix of `s`. */
  function TrimStart(s: string): (r: string)
    ensures |r| <= |s| && r == s[|s| - |r|..]
    ensures forall k :: 0 <= k < |s| - |r| ==> IsJsWhitespace(s[k])
    ensures r != [] ==> !IsJsWhitespace(r[0])
  {
    if s != [] && IsJsWhitespace(s[0]) then TrimStart(s[1..]) else s
  }

  /** `s` with its trailing whitespace removed: a prefix of `s`. */
  function TrimEnd(s: string): (r: string)
    ensures |r| <= |s| && r == s[..|r|]
    ensures forall k :: |r| <= k < |s| ==> IsJsWhitespace(s[k])
    ensures r != [] ==> !IsJsWhitespace(r[|r| - 1])
  {
    if s != [] && IsJsWhitespace(s[|s| - 1]) then TrimEnd(s[..|s| - 1]) else s
  }

  /** How many whitespace characters `s` starts with. */
  function LeadingWhitespace(s: string): (n: nat)
    ensures n <= |s|
  {
    |s| - |TrimStart(s)|
  }

  /** `s.trim()`: the slice of `s` left after removing whitespace at both ends. */
  function Trim(s: string): (r: string)
    ensures var i := LeadingWhitespace(s);
      && i + |r| <= |s| && r == s[i..i + |r|]
      && (forall k :: 0 <= k < i ==> IsJsWhitespace(s[k]))
      && (forall k :: i + |r| <= k < |s| ==> IsJsWhitespace(s[k]))
    ensures r != [] ==> !IsJsWhitespace(r[0]) && !IsJsWhitespace(r[|r| - 1])
  {
    var t := TrimStart(s);
    var r := TrimEnd(t);
    TrimEndOfSuffix(s, t, r);
    r
  }

  /** The part `TrimEnd` drops from a suffix of `s` is whitespace at the end of `s`. */
  lemma TrimEndOfSuffix(s: string, t: string, r: string)
    requires |t| <= |s| && t == s[|s| - |t|..]
    requires |r| <= |t| && r == t[..|r|]
    requires forall k :: |r| <= k < |t| ==> IsJsWhitespace(t[k])
    ensures var i := |s| - |t|;
      && r == s[i..i + |r|]
      && forall k :: i + |r| <= k < |s| ==> IsJsWhitespace(s[k])
  {
    var i := |s| - |t|;
    SliceOfSuffix(s, i, |r|);
    forall k | i + |r| <= k < |s| ensures IsJsWhitespace(s[k]) {
      assert s[k] == t[k - i];
    }
  }

  lemma SliceOfSuffix(s: string, i: nat, n: nat)
    requires i + n <= |s|
    ensures s[i..][..n] == s[i..i + n]
  {
  }

  /** The trimmed text is empty exactly when every character of `s` is whitespace. */
  lemma TrimEmptyIff(s: string)
    ensures Trim(s) == [] <==> forall k :: 0 <= k < |s| ==> IsJsWhitespace(s[k])
  {
    var t := TrimStart(s);
    if Trim(s) != [] {
      var r := Trim(s);
      assert !IsJsWhitespace(r[0]);
      assert r[0] == t[0] == s[|s| - |t|];
    }
  }

  /** Trimming twice changes nothing. */
  lemma TrimIdempotent(s: string)
    ensures Trim(Trim(s)) == Trim(s)
  {
    var r := Trim(s);
    if r != [] {
      assert TrimStart(r) == r;
      assert TrimEnd(r) == r;
    }
  }

  /** `s.startsWith(prefix)`. */
  predicate StartsWith(s: string, prefix: string) {
    |prefix| <= |s| && s[..|prefix|] == prefix
  }

  /** The inverse of `Split`: the pieces joined with '\n'. */
  function Join(lines: seq<string>): string
    requires |lines| >= 1
    decreases |lines|
  {
    if |lines| == 1 then lines[0] else lines[0] + "\n" + Join(lines[1..])
  }

  /** Joining is unaffected by a prefix added to the first piece. */
  lemma {:induction false} JoinConsPrefix(x: string, a: string, tail: seq<string>)
    ensures Join([x + a] + tail) == x + Join([a] + tail)
  {
    if tail != [] {
      assert ([x + a] + tail)[1..] == tail;
      assert ([a] + tail)[1..] == tail;
    }
  }

  /** `s.split('\n')`: the maximal '\n'-free pieces of `s`, in order; there is always at
      least one piece, and an empty string between two adjacent separators. */
  function Split(s: string): (r: seq<string>)
    ensures |r| >= 1
    ensures forall i :: 0 <= i < |r| ==> '\n' !in r[i]
    ensures Join(r) == s
    decreases |s|
  {
    if s == [] then [""]
    else
      var rest := Split(s[1..]);
      if s[0] == '\n' then
        assert ([""] + rest)[1..] == rest;
        [""] + rest
      else
        JoinConsPrefix([s[0]], rest[0], rest[1..]);
        assert [rest[0]] + rest[1..] == rest;
        assert [s[0]] + s[1..] == s;
        [[s[0]] + rest[0]] + rest[1..]
  }

  /** A piece free of '\n' in front of any text stays glued to the first piece of its split. */
  lemma {:induction false} SplitPrefix(x: string, t: string)
    requires '\n' !in x
    ensures Split(x + t) == [x + Split(t)[0]] + Split(t)[1..]
    decreases |x|
  {
    if x != [] {
      assert (x + t)[0] == x[0] && (x + t)[1..] == x[1..] + t;
      SplitPrefix(x[1..], t);
      assert [x[0]] + (x[1..] + Split(t)[0]) == x + Split(t)[0];
    } else {
      assert x + t == t;
      assert x + Split(t)[0] == Split(t)[0];
      assert [Split(t)[0]] + Split(t)[1..] == Split(t);
    }
  }

  /** A leading '\n' puts an empty piece in front. */
  lemma SplitNewline(t: string)
    ensures Split("\n" + t) == [""] + Split(t)
  {
    assert ("\n" + t)[0] == '\n' && ("\n" + t)[1..] == t;
  }

  /** Splitting undoes joining, for pieces free of '\n'. */
  lemma {:induction false} SplitJoin(lines: seq<string>)
    requires |lines| >= 1
    requires forall i :: 0 <= i < |lines| ==> '\n' !in lines[i]
    ensures Split(Join(lines)) == lines
    decreases |lines|
  {
    if |lines| == 1 {
      SplitPrefix(lines[0], "");
      assert lines[0] + "" == lines[0];
    } else {
      SplitJoin(lines[1..]);
      SplitConsLine(lines[0], Join(lines[1..]), lines[1..]);
      assert [lines[0]] + lines[1..] == lines;
    }
  }

  /** A '\n'-free line and a '\n' in front of a text put that line in front of its split. */
  lemma SplitConsLine(x: string, t: string, tail: seq<string>)
    requires '\n' !in x && Split(t) == tail
    ensures Split(x + "\n" + t) == [x] + tail
  {
    var u := "\n" + t;
    SplitNewline(t);
    var v := Split(u);
    assert v[0] == "" && v[1..] == tail;
    SplitPrefix(x, u);
    assert x + v[0] == x;
    assert x + "\n" + t == x + u;
  }

  /** Every piece followed by its '\n' terminator, concatenated. */
  function Terminated(lines: seq<string>): string {
    if lines == [] then "" else lines[0] + "\n" + Terminated(lines[1..])
  }

  /** The complete lines of a split, each with its '\n', followed by the unterminated
      remainder, give back the text that was split. */
  lemma {:induction false} TerminatedThenRest(lines: seq<string>)
    requires |lines| >= 1
    ensures Terminated(lines[..|lines| - 1]) + lines[|lines| - 1] == Join(lines)
    decreases |lines|
  {
    if |lines| > 1 {
      TerminatedThenRest(lines[1..]);
      assert lines[..|lines| - 1][1..] == lines[1..][..|lines| - 2];
      assert lines[1..][|lines| - 2] == lines[|lines| - 1];
    }
  }

  lemma ConcatAssociative<T>(a: seq<T>, b: seq<T>, c: seq<T>)
    ensures a + (b + c) == (a + b) + c
  {
  }

  lemma DropLastOfConcat<T>(a: seq<T>, b: seq<T>)
    requires |b| > 0
    ensures (a + b)[..|a + b| - 1] == a + b[..|b| - 1]
  {
  }

  /** Complete lines in front of a text are split off as they are. */
  lemma {:induction false} SplitTerminatedPrefix(lines: seq<string>, t: string)
    requires forall i :: 0 <= i < |lines| ==> '\n' !in lines[i]
    ensures Split(Terminated(lines) + t) == lines + Split(t)
    decreases |lines|
  {
    if lines == [] {
      assert Terminated(lines) + t == t;
    } else {
      var first, rest, st := lines[0], lines[1..], Split(t);
      var u := Terminated(rest) + t;
      assert Split(u) == rest + st by {
        assert forall i :: 0 <= i < |rest| ==> rest[i] == lines[i + 1];
        SplitTerminatedPrefix(rest, t);
      }
      assert Terminated(lines) + t == first + "\n" + u by {
        assert Terminated(lines) == first + "\n" + Terminated(rest);
      }
      SplitConsLine(first, u, rest + st);
      assert [first] + rest == lines;
      ConcatAssociative([first], rest, st);
    }
  }

  /** Text appended after `x` leaves the complete lines of `x` alone and continues its
      unterminated last piece. */
  lemma SplitAppend(x: string, y: string)
    ensures var xs := Split(x);
      Split(x + y) == xs[..|xs| - 1] + Split(xs[|xs| - 1] + y)
  {
    var xs := Split(x);
    TerminatedThenRest(xs);
    assert x + y == Terminated(xs[..|xs| - 1]) + (xs[|xs| - 1] + y);
    SplitTerminatedPrefix(xs[..|xs| - 1], xs[|xs| - 1] + y);
  }

  /** The complete lines of `s`: its pieces before the last '\n'. */
  function CompleteLines(s: string): seq<string> {
    var all := Split(s);
    all[..|all| - 1]
  }

  /** What follows the last '\n' of `s`: the line still being received. */
  function Leftover(s: string): string {
    var all := Split(s);
    all[|all| - 1]
  }

  /** Appending text to `x` keeps the complete lines of `x` and continues its leftover,
      which never holds a line break. */
  lemma CompleteLinesAppend(x: string, y: string)
    ensures '\n' !in Leftover(x)
    ensures CompleteLines(x + y) == CompleteLines(x) + CompleteLines(Leftover(x) + y)
  {
    var later := Split(Leftover(x) + y);
    SplitAppend(x, y);
    DropLastOfConcat(CompleteLines(x), later);
  }

  function Digit(d: nat): (c: char)
    requires d < 10
    ensures '0' <= c <= '9' && c as int - '0' as int == d
  {
    ('0' as int + d) as char
  }

  predicate AllDigits(s: string) {
    forall k :: 0 <= k < |s| ==> '0' <= s[k] <= '9'
  }

  /** The value of a string of decimal digits. */
  function DigitsValue(s: string): nat
    requires AllDigits(s)
  {
    if s == [] then 0 else DigitsValue(s[..|s| - 1]) * 10 + (s[|s| - 1] as int - '0' as int)
  }

  /** `${n}` for a non-negative integer: its shortest decimal rendering. */
  function NatToString(n: nat): (r: string)
    ensures |r| >= 1 && AllDigits(r)
    ensures |r| > 1 ==> r[0] != '0'
  {
    if n < 10 then [Digit(n)] else NatToString(n / 10) + [Digit(n % 10)]
  }

  /** Reading the rendering back gives the number: the rendering is faithful. */
  lemma {:induction false} NatToStringRoundTrip(n: nat)
    ensures DigitsValue(NatToString(n)) == n
  {
    if n >= 10 {
      NatToStringRoundTrip(n / 10);
      var r := NatToString(n);
      assert r[..|r| - 1] == NatToString(n / 10);
    }
  }

  /** Distinct numbers render differently. */
  lemma NatToStringInjective(m: nat, n: nat)
    requires NatToString(m) == NatToString(n)
    ensures m == n
  {
    NatToStringRoundTrip(m);
    NatToStringRoundTrip(n);
  }

  /** `s.padStart(width, fill)` for a one-character fill. */
  function PadStart(s: string, width: nat, fill: char): (r: string)
    ensures |r| == if |s| >= width then |s| else width
    ensures r[|r| - |s|..] == s
    ensures forall k :: 0 <= k < |r| - |s| ==> r[k] == fill
  {
    if |s| >= width then s else seq(width - |s|, _ => fill) + s
  }
}
