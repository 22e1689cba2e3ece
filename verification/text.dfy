/**
 * The string operations the server relies on: JavaScript's `split('/')`
 * followed by `pop()` (the last path segment), the decimal rendering of a
 * timestamp inside a template literal, and prefix stripping used to read a
 * message back.
 */
module Text {
  import opened Optional

  /** Joins path segments with '/', the inverse of Split. */
  function Join(parts: seq<string>): (s: string)
    requires |parts| >= 1
    decreases |parts|
  {
    if |parts| == 1 then parts[0]
    else Join(parts[..|parts| - 1]) + "/" + parts[|parts| - 1]
  }

  /**
   * `s.split('/')`: the maximal '/'-free pieces of `s`, in order. There is
   * always at least one piece (the empty string splits into `[""]`).
   */
  function Split(s: string): (parts: seq<string>)
    ensures |parts| >= 1
    ensures forall i :: 0 <= i < |parts| ==> '/' !in parts[i]
    ensures Join(parts) == s
    decreases |s|
  {
    if |s| == 0 then [""]
    else
      var init := Split(s[..|s| - 1]);
      var c := s[|s| - 1];
      assert s == s[..|s| - 1] + [c];
      if c == '/' then
        assert (init + [""])[..|init|] == init;
        init + [""]
      else
        var n := |init|;
        var parts := init[..n - 1] + [init[n - 1] + [c]];
        assert parts[..n - 1] == init[..n - 1];
        assert '/' !in init[n - 1] + [c];
        parts
  }

  /** Splitting a join of '/'-free pieces gives the pieces back. */
  lemma {:induction false} SplitJoin(parts: seq<string>)
    requires |parts| >= 1
    requires forall i :: 0 <= i < |parts| ==> '/' !in parts[i]
    ensures Split(Join(parts)) == parts
    decreases |parts|
  {
    if |parts| == 1 {
      SplitPlain(parts[0]);
    } else {
      var init := parts[..|parts| - 1];
      var last := parts[|parts| - 1];
      SplitJoin(init);
      SplitAppendPlain(Join(init) + "/", last);
      assert Join(init) + "/" + last == (Join(init) + "/") + last;
    }
  }

  /** A '/'-free string is a single piece. */
  lemma SplitPlain(s: string)
    requires '/' !in s
    ensures Split(s) == [s]
  {
  }

  /** Appending a '/'-free tail after a trailing '/' adds exactly one piece. */
  lemma {:induction false} SplitAppendPlain(prefix: string, tail: string)
    requires |prefix| > 0 && prefix[|prefix| - 1] == '/'
    requires '/' !in tail
    ensures Split(prefix + tail) == Split(prefix[..|prefix| - 1]) + [tail]
    decreases |tail|
  {
    if |tail| == 0 {
      assert prefix + tail == prefix;
    } else {
      var t := tail[..|tail| - 1];
      assert '/' !in t;
      SplitAppendPlain(prefix, t);
      var whole := prefix + tail;
      assert whole[..|whole| - 1] == prefix + t;
      assert whole[|whole| - 1] == tail[|tail| - 1] != '/';
      var init := Split(prefix + t);
      assert init == Split(prefix[..|prefix| - 1]) + [t];
      assert t + [tail[|tail| - 1]] == tail;
      assert init[..|init| - 1] == Split(prefix[..|prefix| - 1]);
    }
  }

  /**
   * `path.split('/').pop()`: the text after the last '/' of `path`, or the
   * whole of `path` when it holds no '/'.
   */
  function LastSegment(path: string): (name: string)
    ensures '/' !in name
    ensures |name| <= |path| && path[|path| - |name|..] == name
    ensures |name| == |path| || path[|path| - |name| - 1] == '/'
  {
    var parts := Split(path);
    var n := |parts|;
    assert n > 1 ==> path == (Join(parts[..n - 1]) + "/") + parts[n - 1];
    parts[n - 1]
  }

  /** The three properties of LastSegment's contract determine it uniquely. */
  lemma LastSegmentUnique(path: string, name: string)
    requires '/' !in name
    requires |name| <= |path| && path[|path| - |name|..] == name
    requires |name| == |path| || path[|path| - |name| - 1] == '/'
    ensures name == LastSegment(path)
  {
  }

  predicate IsDigit(c: char) {
    '0' <= c <= '9'
  }

  predicate AllDigits(s: string) {
    forall i :: 0 <= i < |s| ==> IsDigit(s[i])
  }

  function DigitChar(d: nat): (c: char)
    requires d < 10
    ensures IsDigit(c)
  {
    (48 + d) as char
  }

  function DigitValue(c: char): (d: nat)
    requires IsDigit(c)
    ensures d < 10
  {
    (c as int) - 48
  }

  /**
   * The decimal text of a non-negative integer, as a template literal renders
   * it: at least one digit and no leading zero unless the number is zero.
   */
  function Decimal(n: nat): (s: string)
    ensures |s| >= 1 && AllDigits(s)
    ensures s[0] == '0' ==> n == 0 && |s| == 1
    decreases n
  {
    if n < 10 then [DigitChar(n)]
    else Decimal(n / 10) + [DigitChar(n % 10)]
  }

  /** The number a string of decimal digits denotes. */
  function DecimalValue(s: string): (n: nat)
    requires AllDigits(s)
    decreases |s|
  {
    if |s| == 0 then 0
    else DecimalValue(s[..|s| - 1]) * 10 + DigitValue(s[|s| - 1])
  }

  /** Reading a rendered number gives the number back. */
  lemma {:induction false} DecimalRoundTrip(n: nat)
    ensures DecimalValue(Decimal(n)) == n
    decreases n
  {
    var s := Decimal(n);
    if n >= 10 {
      DecimalRoundTrip(n / 10);
      assert s[..|s| - 1] == Decimal(n / 10);
    }
  }

  /** Distinct numbers render as distinct texts. */
  lemma DecimalInjective(a: nat, b: nat)
    ensures Decimal(a) == Decimal(b) ==> a == b
  {
    DecimalRoundTrip(a);
    DecimalRoundTrip(b);
  }

  /** `s` with `prefix` removed, or None when `s` does not start with `prefix`. */
  function StripPrefix(prefix: string, s: string): (rest: Option<string>)
    ensures rest.Some? <==> |prefix| <= |s| && s[..|prefix|] == prefix
    ensures rest.Some? ==> s == prefix + rest.value
  {
    if |prefix| <= |s| && s[..|prefix|] == prefix then Some(s[|prefix|..]) else None
  }

  /** Stripping a prefix from what it was prepended to gives the rest back. */
  lemma StripPrefixAppend(prefix: string, rest: string)
    ensures StripPrefix(prefix, prefix + rest) == Some(rest)
  {
  }
}
