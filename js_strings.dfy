/** The JavaScript string operations the server relies on, stated over
    `seq<char>`: `trim()`, `Array.prototype.join`, an end-anchored
    `replace(/suffix$/, …)`, `toLowerCase()` on the characters that can
    matter, and the decimal text of a non-negative integer produced by
    a template literal. `Split` and `EndsWith` are not called by the
    server: they are readers used to state properties (the meeting
    details read back line by line, what a `$`-anchored pattern
    matches). */
module JsStrings {

  /** ECMAScript WhiteSpace and LineTerminator code points: what
      `String.prototype.trim` removes. */
  predicate IsWhitespace(c: char) {
    || c == '\t' || c == '\n' || c == '\U{000B}' || c == '\U{000C}' || c == '\r'
    || c == ' ' || c == '\U{00A0}' || c == '\U{1680}'
    || ('\U{2000}' <= c <= '\U{200A}')
    || c == '\U{2028}' || c == '\U{2029}' || c == '\U{202F}' || c == '\U{205F}'
    || c == '\U{3000}' || c == '\U{FEFF}'
  }

  /** `s.trimStart()`: the longest suffix of `s` that does not begin
      with whitespace; everything cut off is whitespace. */
  function TrimStart(s: string): (r: string)
    ensures |r| <= |s| && r == s[|s| - |r|..]
    ensures r != [] ==> !IsWhitespace(r[0])
    ensures forall i :: 0 <= i < |s| - |r| ==> IsWhitespace(s[i])
  {
    if s != [] && IsWhitespace(s[0]) then TrimStart(s[1..]) else s
  }

  /** `s.trimEnd()`: the longest prefix of `s` that does not end with
      whitespace; everything cut off is whitespace. */
  function TrimEnd(s: string): (r: string)
    ensures |r| <= |s| && r == s[..|r|]
    ensures r != [] ==> !IsWhitespace(r[|r| - 1])
    ensures forall i :: |r| <= i < |s| ==> IsWhitespace(s[i])
  {
    if s != [] && IsWhitespace(s[|s| - 1]) then TrimEnd(s[..|s| - 1]) else s
  }

  /** `r` is the run of `s` starting at `k`, and everything before and
      after it is whitespace. */
  predicate WhitespaceAround(s: string, r: string, k: int) {
    0 <= k <= |s| - |r| && r == s[k..k + |r|] &&
    (forall i :: 0 <= i < k ==> IsWhitespace(s[i])) &&
    (forall i :: k + |r| <= i < |s| ==> IsWhitespace(s[i]))
  }

  /** `s.trim()`: a run of `s` that neither starts nor ends with
      whitespace, with only whitespace cut off on either side. */
  function Trim(s: string): (r: string)
    ensures |r| <= |s|
    ensures r != [] ==> !IsWhitespace(r[0]) && !IsWhitespace(r[|r| - 1])
    ensures exists k :: WhitespaceAround(s, r, k)
  {
    var t := TrimStart(s);
    var r := TrimEnd(t);
    var k := |s| - |t|;
    assert forall i :: k + |r| <= i < |s| ==> s[i] == t[i - k];
    assert WhitespaceAround(s, r, k);
    r
  }

  /** A string whose first and last characters are not whitespace is
      left alone by `trim()`. */
  lemma {:induction false} TrimKeepsTrimmed(s: string)
    requires s != [] ==> !IsWhitespace(s[0]) && !IsWhitespace(s[|s| - 1])
    ensures Trim(s) == s
  {
    assert TrimStart(s) == s;
    assert TrimEnd(s) == s;
  }

  /** `trim()` is idempotent. */
  lemma TrimIdempotent(s: string)
    ensures Trim(Trim(s)) == Trim(s)
  {
    TrimKeepsTrimmed(Trim(s));
  }

  /** `xs.join(sep)`: the elements with `sep` between neighbours; an
      empty array joins to the empty string. */
  function Join(xs: seq<string>, sep: string): (r: string)
    ensures xs == [] ==> r == []
    ensures xs != [] ==> |r| >= |xs[0]| && r[..|xs[0]|] == xs[0]
  {
    if xs == [] then []
    else if |xs| == 1 then xs[0]
    else xs[0] + sep + Join(xs[1..], sep)
  }

  /** `s.split(c)` for a one-character separator: the pieces between
      occurrences of `c`; there is always at least one piece. */
  function Split(s: string, c: char): (r: seq<string>)
    ensures |r| >= 1
    ensures forall k :: 0 <= k < |r| ==> c !in r[k]
  {
    if s == [] then [[]]
    else if s[0] == c then [[]] + Split(s[1..], c)
    else
      var rest := Split(s[1..], c);
      [[s[0]] + rest[0]] + rest[1..]
  }

  lemma {:induction false} SplitPlain(x: string, c: char)
    requires c !in x
    ensures Split(x, c) == [x]
  {
    if x != [] {
      SplitPlain(x[1..], c);
      assert [x[0]] + x[1..] == x;
    }
  }

  lemma {:induction false} SplitAfterPiece(x: string, c: char, t: string)
    requires c !in x
    ensures Split(x + [c] + t, c) == [x] + Split(t, c)
  {
    if x == [] {
      assert x + [c] + t == [c] + t;
      assert ([c] + t)[1..] == t;
    } else {
      SplitAfterPiece(x[1..], c, t);
      assert (x + [c] + t)[1..] == x[1..] + [c] + t;
      assert [x[0]] + x[1..] == x;
    }
  }

  /** Each piece followed by `sep`, the way a template literal whose
      every line ends in a newline is built. */
  function Terminated(xs: seq<string>, sep: string): (r: string)
    ensures xs != [] ==> |r| >= |xs[0]| + |sep| && r[..|xs[0]| + |sep|] == xs[0] + sep
    ensures xs != [] ==> EndsWith(r, sep)
  {
    if xs == [] then []
    else
      var rest := Terminated(xs[1..], sep);
      assert (xs[0] + sep + rest)[..|xs[0]| + |sep|] == xs[0] + sep;
      assert xs[1..] != [] ==> (xs[0] + sep + rest)[|xs[0] + sep + rest| - |sep|..] == rest[|rest| - |sep|..];
      xs[0] + sep + rest
  }

  /** Terminating every piece is joining them with a final empty piece. */
  lemma {:induction false} JoinTerminated(xs: seq<string>, sep: string)
    ensures Join(xs + [[]], sep) == Terminated(xs, sep)
  {
    if xs != [] {
      JoinTerminated(xs[1..], sep);
      assert (xs + [[]])[1..] == xs[1..] + [[]];
    }
  }

  /** Splitting a join on its one-character separator gives the
      pieces back, provided no piece contains the separator. */
  lemma {:induction false} SplitJoin(xs: seq<string>, c: char)
    requires xs != []
    requires forall k :: 0 <= k < |xs| ==> c !in xs[k]
    ensures Split(Join(xs, [c]), c) == xs
  {
    if |xs| == 1 {
      SplitPlain(xs[0], c);
    } else {
      SplitJoin(xs[1..], c);
      SplitAfterPiece(xs[0], c, Join(xs[1..], [c]));
      assert [xs[0]] + xs[1..] == xs;
    }
  }

  predicate EndsWith(s: string, suffix: string) {
    |suffix| <= |s| && s[|s| - |suffix|..] == suffix
  }

  /** `s.replace(/<suffix>$/, repl)` for a literal suffix: the regular
      expression has no `m` flag, so `$` matches only at the very end,
      and the match is case-sensitive. */
  function ReplaceSuffix(s: string, suffix: string, repl: string): (r: string)
    ensures EndsWith(s, suffix) ==> EndsWith(r, repl) && r[..|r| - |repl|] == s[..|s| - |suffix|]
    ensures !EndsWith(s, suffix) ==> r == s
  {
    if EndsWith(s, suffix) then s[..|s| - |suffix|] + repl else s
  }

  /** ASCII lower-casing. `toLowerCase()` also maps non-ASCII letters,
      but none of them maps onto the ASCII letters of the extensions
      the server compares with, so the comparison is unaffected. */
  function LowerAscii(s: string): (r: string)
    ensures |r| == |s|
    ensures forall i :: 0 <= i < |s| ==> ('A' <= s[i] <= 'Z' <==> r[i] != s[i])
    ensures forall i :: 0 <= i < |s| && 'A' <= s[i] <= 'Z' ==> r[i] as int == s[i] as int + 32
  {
    seq(|s|, i requires 0 <= i < |s| =>
      if 'A' <= s[i] <= 'Z' then (s[i] as int + 32) as char else s[i])
  }

  predicate IsDigit(c: char) { '0' <= c <= '9' }

  function DigitChar(d: nat): char
    requires d < 10
  {
    ('0' as int + d) as char
  }

  /** The text a template literal gives a non-negative integer:
      decimal digits, no sign, no leading zero. */
  function DecimalString(n: nat): (r: string)
    ensures r != []
    ensures forall i :: 0 <= i < |r| ==> IsDigit(r[i])
    ensures |r| > 1 ==> r[0] != '0'
  {
    if n < 10 then [DigitChar(n)] else DecimalString(n / 10) + [DigitChar(n % 10)]
  }

  /** The value of a string of decimal digits. */
  function DecimalValue(s: string): nat
    requires forall i :: 0 <= i < |s| ==> IsDigit(s[i])
  {
    if s == [] then 0
    else
      var d := s[|s| - 1] as int - '0' as int;
      assert IsDigit(s[|s| - 1]);
      DecimalValue(s[..|s| - 1]) * 10 + d
  }

  lemma {:induction false} DecimalRoundTrip(n: nat)
    ensures DecimalValue(DecimalString(n)) == n
  {
    var s := DecimalString(n);
    if n >= 10 {
      DecimalRoundTrip(n / 10);
      assert s[..|s| - 1] == DecimalString(n / 10);
    }
  }

  /** Different integers have different decimal texts. */
  lemma DecimalInjective(m: nat, n: nat)
    requires DecimalString(m) == DecimalString(n)
    ensures m == n
  {
    DecimalRoundTrip(m);
    DecimalRoundTrip(n);
  }
}
