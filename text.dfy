/** Python's built-in string operations, as the parameter-file code and the
    input-card code use them, over `string` (a `seq<char>`).  Only the ASCII
    behaviour of case mapping and digits is modelled; whitespace is Python's
    full `str.isspace()` set. */
module Text {

  datatype Option<T> = None | Some(value: T)

  /** `c.isspace()`. */
  predicate IsSpace(c: char) {
    c == ' ' || '\t' <= c <= '\r' || '\U{1c}' <= c <= '\U{1f}' || c == '\U{85}' || c == '\U{a0}'
    || c == '\U{1680}' || '\U{2000}' <= c <= '\U{200a}' || c == '\U{2028}' || c == '\U{2029}'
    || c == '\U{202f}' || c == '\U{205f}' || c == '\U{3000}'
  }

  /** `c.isdigit()` for ASCII digits. */
  predicate IsDigit(c: char) { '0' <= c <= '9' }

  /** `not s.strip()`: the string holds whitespace only. */
  predicate IsBlank(s: string) {
    forall i :: 0 <= i < |s| ==> IsSpace(s[i])
  }

  function Spaces(n: nat): (r: string)
    ensures |r| == n && forall i :: 0 <= i < n ==> r[i] == ' '
  {
    seq(n, _ => ' ')
  }

  function Max(a: int, b: int): int { if a < b then b else a }
  function Min(a: int, b: int): int { if a < b then a else b }

  /** `s[i:j]` for non-negative bounds: Python clamps both ends to the length
      and yields the empty string when the range is empty. */
  function Slice(s: string, i: nat, j: nat): (r: string)
    ensures |r| == Max(0, Min(j, |s|) - Min(i, |s|))
    ensures forall k :: 0 <= k < |r| ==> r[k] == s[i + k]
    ensures i <= j <= |s| ==> r == s[i..j]
  {
    var lo := Min(i, |s|);
    var hi := Max(lo, Min(j, |s|));
    s[lo..hi]
  }

  lemma SliceOfSlice(s: string, lo: nat, hi: nat, a: nat, b: nat)
    requires lo <= hi <= |s| && a <= b <= hi - lo
    ensures s[lo..hi][a..b] == s[lo + a..lo + b]
  {
    assert forall i :: 0 <= i < b - a ==> s[lo..hi][a..b][i] == s[lo + a..lo + b][i];
  }

  /** `s.ljust(w)`: pad on the right with spaces, never truncate. */
  function LJust(s: string, w: int): (r: string)
    ensures |r| == Max(|s|, w)
    ensures r[..|s|] == s
    ensures forall k :: |s| <= k < |r| ==> r[k] == ' '
  {
    if |s| >= w then s else s + Spaces(w - |s|)
  }

  /** Column `i` of `s.ljust(w)`, for `i` inside the width. */
  lemma LJustAt(s: string, w: int, i: nat)
    requires i < w
    ensures |LJust(s, w)| >= w
    ensures LJust(s, w)[i] == if i < |s| then s[i] else ' '
  {
    if i < |s| {
      assert LJust(s, w)[i] == LJust(s, w)[..|s|][i];
    }
  }

  /** `s.rjust(w)`: pad on the left with spaces, never truncate. */
  function RJust(s: string, w: int): (r: string)
    ensures |r| == Max(|s|, w)
    ensures r[|r| - |s|..] == s
    ensures forall k :: 0 <= k < |r| - |s| ==> r[k] == ' '
  {
    if |s| >= w then s else Spaces(w - |s|) + s
  }

  predicate StartsWith(s: string, p: string) {
    |p| <= |s| && s[..|p|] == p
  }

  /** `p in s` for strings. */
  predicate Contains(s: string, p: string)
    decreases |s|
  {
    StartsWith(s, p) || (s != [] && Contains(s[1..], p))
  }

  function UpperChar(c: char): char {
    if 'a' <= c <= 'z' then (c as int - 32) as char else c
  }

  /** `s.upper()` with ASCII case mapping. */
  function Upper(s: string): (r: string)
    ensures |r| == |s| && forall k :: 0 <= k < |s| ==> r[k] == UpperChar(s[k])
  {
    seq(|s|, k requires 0 <= k < |s| => UpperChar(s[k]))
  }

  /** `s.lstrip()`. */
  function TrimStart(s: string): (r: string)
    ensures |r| <= |s| && r == s[|s| - |r|..]
    ensures forall k :: 0 <= k < |s| - |r| ==> IsSpace(s[k])
    ensures r == [] || !IsSpace(r[0])
  {
    if s != [] && IsSpace(s[0]) then
      var r := TrimStart(s[1..]);
      assert s[1..][|s| - 1 - |r|..] == s[|s| - |r|..];
      assert forall k :: 1 <= k < |s| - |r| ==> s[k] == s[1..][k - 1];
      r
    else s
  }

  /** `s.rstrip()`. */
  function TrimEnd(s: string): (r: string)
    ensures |r| <= |s| && r == s[..|r|]
    ensures forall k :: |r| <= k < |s| ==> IsSpace(s[k])
    ensures r == [] || !IsSpace(r[|r| - 1])
  {
    if s != [] && IsSpace(s[|s| - 1]) then TrimEnd(s[..|s| - 1]) else s
  }

  /** `s.strip()`. */
  function Strip(s: string): string {
    TrimEnd(TrimStart(s))
  }

  /** Index of the first occurrence of `c`. */
  function FirstIndex(s: string, c: char): (k: nat)
    requires c in s
    ensures k < |s| && s[k] == c && c !in s[..k]
  {
    if s[0] == c then 0 else 1 + FirstIndex(s[1..], c)
  }

  /** `sep.join(xs)`. */
  function Join(sep: string, xs: seq<string>): string
    decreases |xs|
  {
    if |xs| == 0 then "" else if |xs| == 1 then xs[0] else xs[0] + sep + Join(sep, xs[1..])
  }

  /** `s.split(c)` for a one-character separator: one more piece than there are separators. */
  function Split(s: string, c: char): (r: seq<string>)
    ensures |r| >= 1
    ensures forall k :: 0 <= k < |r| ==> c !in r[k]
    decreases |s|
  {
    if c !in s then [s]
    else
      var k := FirstIndex(s, c);
      [s[..k]] + Split(s[k + 1..], c)
  }

  function WordLength(s: string): (k: nat)
    ensures k <= |s| && (k < |s| ==> IsSpace(s[k]))
    ensures forall i :: 0 <= i < k ==> !IsSpace(s[i])
  {
    if s == [] || IsSpace(s[0]) then 0 else 1 + WordLength(s[1..])
  }

  /** `s.split()`: the maximal runs of non-whitespace characters. */
  function Words(s: string): seq<string>
    decreases |s|
  {
    var t := TrimStart(s);
    if t == [] then []
    else
      var k := WordLength(t);
      [t[..k]] + Words(t[k..])
  }

  /** `s.replace(pat, rep)`: leftmost, non-overlapping occurrences. */
  function ReplaceAll(s: string, pat: string, rep: string): string
    requires pat != []
    decreases |s|
  {
    if |s| < |pat| then s
    else if s[..|pat|] == pat then rep + ReplaceAll(s[|pat|..], pat, rep)
    else [s[0]] + ReplaceAll(s[1..], pat, rep)
  }

  /** The lines a Python text file yields when iterated: each keeps its
      terminating newline, the last one may have none. */
  function FileLines(s: string): (r: seq<string>)
    ensures forall k :: 0 <= k < |r| ==> r[k] != []
    decreases |s|
  {
    if s == [] then []
    else if '\n' !in s then [s]
    else
      var k := FirstIndex(s, '\n');
      [s[..k + 1]] + FileLines(s[k + 1..])
  }

  // ---- integers and their decimal text -------------------------------------

  function DigitChar(d: nat): (c: char)
    requires d < 10
    ensures IsDigit(c)
  {
    (48 + d) as char
  }

  function DigitValue(c: char): (d: nat)
    requires IsDigit(c)
    ensures d < 10 && DigitChar(d) == c
  {
    assert c as int >= '0' as int;
    c as int - 48
  }

  predicate AllDigits(s: string) {
    forall k :: 0 <= k < |s| ==> IsDigit(s[k])
  }

  /** The value of a string of decimal digits. */
  function DigitsValue(s: string): nat
    requires AllDigits(s)
  {
    if s == [] then 0 else 10 * DigitsValue(s[..|s| - 1]) + DigitValue(s[|s| - 1])
  }

  /** `str(n)` for a natural number. */
  function NatToString(n: nat): (r: string)
    ensures r != [] && AllDigits(r)
  {
    if n < 10 then [DigitChar(n)] else NatToString(n / 10) + [DigitChar(n % 10)]
  }

  /** `str(i)` for an integer. */
  function IntToString(i: int): string {
    if i < 0 then "-" + NatToString(-i) else NatToString(i)
  }

  /** Digits, possibly grouped by single underscores, as Python's `int()` accepts them. */
  predicate IsDigitGroups(t: string) {
    && t != []
    && IsDigit(t[0]) && IsDigit(t[|t| - 1])
    && (forall k :: 0 <= k < |t| ==> IsDigit(t[k]) || t[k] == '_')
    && (forall k :: 0 <= k < |t| - 1 ==> !(t[k] == '_' && t[k + 1] == '_'))
  }

  function DropUnderscores(t: string): (r: string)
    ensures (forall k :: 0 <= k < |t| ==> IsDigit(t[k]) || t[k] == '_') ==> AllDigits(r)
    ensures AllDigits(t) ==> r == t
  {
    if t == [] then [] else (if t[0] == '_' then [] else [t[0]]) + DropUnderscores(t[1..])
  }

  /** Digits as `int()` reads them, without sign or surrounding whitespace. */
  function ParseUnsigned(t: string): Option<nat> {
    if IsDigitGroups(t) then Some(DigitsValue(DropUnderscores(t))) else None
  }

  /** `int(s)` on a string: surrounding whitespace, an optional sign, then
      digits; anything else is a ValueError, modelled as None. */
  function ParseInt(s: string): Option<int> {
    ParseStripped(Strip(s))
  }

  /** `int()` of text without surrounding whitespace. */
  function ParseStripped(t: string): Option<int> {
    if t != [] && (t[0] == '-' || t[0] == '+') then
      match ParseUnsigned(t[1..])
      case Some(v) =>
        var r: int := if t[0] == '-' then -(v as int) else v;
        Some(r)
      case None => None
    else
      match ParseUnsigned(t)
      case Some(v) => Some(v)
      case None => None
  }

  /** `[parse(c) for c in cs]`: every piece parsed, or `None` when one of them raises. */
  function ParseAll<T>(cs: seq<string>, parse: string -> Option<T>): (r: Option<seq<T>>)
    ensures r.Some? <==> forall k :: 0 <= k < |cs| ==> parse(cs[k]).Some?
    ensures r.Some? ==> |r.value| == |cs| && forall k :: 0 <= k < |cs| ==> parse(cs[k]) == Some(r.value[k])
  {
    if cs == [] then Some([])
    else
      var init := cs[..|cs| - 1];
      assert forall k :: 0 <= k < |init| ==> init[k] == cs[k];
      match ParseAll(init, parse)
      case None => None
      case Some(vs) =>
        match parse(cs[|cs| - 1])
        case None => None
        case Some(v) => Some(vs + [v])
  }

  /** `f` applied to each element. */
  function Mapped<T, U>(xs: seq<T>, f: T -> U): (ys: seq<U>)
    ensures |ys| == |xs| && forall k :: 0 <= k < |xs| ==> ys[k] == f(xs[k])
  {
    seq(|xs|, k requires 0 <= k < |xs| => f(xs[k]))
  }

  // ---- lemmas ---------------------------------------------------------------

  lemma Assoc<T>(a: seq<T>, b: seq<T>, c: seq<T>)
    ensures a + b + c == a + (b + c)
  {
  }

  lemma MappedSnoc<T, U>(xs: seq<T>, k: nat, f: T -> U)
    requires k < |xs|
    ensures Mapped(xs[..k + 1], f) == Mapped(xs[..k], f) + [f(xs[k])]
  {
    assert forall i :: 0 <= i < k ==> xs[..k + 1][i] == xs[..k][i];
  }

  lemma MappedAppend<T, U>(a: seq<T>, b: seq<T>, f: T -> U)
    ensures Mapped(a + b, f) == Mapped(a, f) + Mapped(b, f)
  {
  }

  lemma ParseAllStep<T>(cs: seq<string>, c: string, parse: string -> Option<T>)
    ensures ParseAll(cs + [c], parse) ==
      match ParseAll(cs, parse)
      case None => None
      case Some(vs) => (match parse(c) case None => None case Some(v) => Some(vs + [v]))
  {
    assert (cs + [c])[..|cs|] == cs;
  }


  lemma {:induction false} DigitsValueOfNatToString(n: nat)
    ensures DigitsValue(NatToString(n)) == n
  {
    if n >= 10 {
      DigitsValueOfNatToString(n / 10);
      var s := NatToString(n / 10) + [DigitChar(n % 10)];
      assert s[..|s| - 1] == NatToString(n / 10);
    }
  }

  lemma TrimStartOfNonSpace(s: string)
    requires s == [] || !IsSpace(s[0])
    ensures TrimStart(s) == s
  {
  }

  lemma TrimEndOfNonSpace(s: string)
    requires s == [] || !IsSpace(s[|s| - 1])
    ensures TrimEnd(s) == s
  {
  }

  lemma {:induction false} TrimStartSkips(a: string, s: string)
    requires IsBlank(a)
    ensures TrimStart(a + s) == TrimStart(s)
    decreases |a|
  {
    if a != [] {
      assert (a + s)[0] == a[0];
      assert (a + s)[1..] == a[1..] + s;
      TrimStartSkips(a[1..], s);
    } else {
      assert a + s == s;
    }
  }

  lemma {:induction false} TrimEndSkips(s: string, b: string)
    requires IsBlank(b)
    ensures TrimEnd(s + b) == TrimEnd(s)
    decreases |b|
  {
    if b != [] {
      assert (s + b)[|s + b| - 1] == b[|b| - 1];
      assert (s + b)[..|s + b| - 1] == s + b[..|b| - 1];
      TrimEndSkips(s, b[..|b| - 1]);
    } else {
      assert s + b == s;
    }
  }

  /** Stripping ignores surrounding whitespace added to the text. */
  lemma StripPadded(a: string, s: string, b: string)
    requires IsBlank(a) && IsBlank(b)
    ensures Strip(a + s + b) == Strip(s)
  {
    var t := TrimStart(s);
    TrimStartPadded(a, s, b);
    if t != [] {
      TrimEndSkips(t, b);
    }
  }

  /** Left-stripping padded text leaves the right padding only where text remains. */
  lemma TrimStartPadded(a: string, s: string, b: string)
    requires IsBlank(a) && IsBlank(b)
    ensures TrimStart(a + s + b) == if TrimStart(s) == [] then [] else TrimStart(s) + b
  {
    TrimStartPaddedLeft(a, s, b);
    TrimStartThenBlank(TrimStart(s), b);
  }

  /** Left padding is stripped along with the blanks that open `s`. */
  lemma TrimStartPaddedLeft(a: string, s: string, b: string)
    requires IsBlank(a)
    ensures TrimStart(a + s + b) == TrimStart(TrimStart(s) + b)
  {
    var u := s + b;
    assert TrimStart(a + s + b) == TrimStart(a + u) by {
      assert a + s + b == a + u;
    }
    assert TrimStart(a + u) == TrimStart(u) by {
      TrimStartSkips(a, u);
    }
    TrimStartDrop(s, b);
  }

  /** Left-stripping stripped text followed by blanks. */
  lemma TrimStartThenBlank(t: string, b: string)
    requires t == [] || !IsSpace(t[0])
    requires IsBlank(b)
    ensures TrimStart(t + b) == if t == [] then [] else t + b
  {
    if t != [] {
      TrimStartOfNonSpace(t + b);
    } else {
      assert t + b == b + [];
      TrimStartSkips(b, []);
    }
  }

  /** Left-stripping `s + b` strips `s` first. */
  lemma {:induction false} TrimStartDrop(s: string, b: string)
    ensures TrimStart(s + b) == TrimStart(TrimStart(s) + b)
    decreases |s|
  {
    if s != [] && IsSpace(s[0]) {
      assert (s + b)[0] == s[0];
      assert (s + b)[1..] == s[1..] + b;
      TrimStartDrop(s[1..], b);
    }
  }

  lemma StripOfNoSpaceEnds(s: string)
    requires s != [] && !IsSpace(s[0]) && !IsSpace(s[|s| - 1])
    ensures Strip(s) == s
  {
    TrimStartOfNonSpace(s);
    TrimEndOfNonSpace(s);
  }

  lemma ParseIntOfDigits(d: string)
    requires d != [] && AllDigits(d)
    ensures ParseInt(d) == Some(DigitsValue(d) as int)
  {
    assert !IsSpace(d[0]) && !IsSpace(d[|d| - 1]);
    StripOfNoSpaceEnds(d);
    assert IsDigitGroups(d);
  }

  lemma UnsignedOfDigits(d: string)
    requires d != [] && AllDigits(d)
    ensures ParseUnsigned(d) == Some(DigitsValue(d))
  {
    assert IsDigitGroups(d);
  }

  lemma ParseIntOfStrippedNegative(s: string, v: nat)
    requires s != [] && s[0] == '-' && Strip(s) == s && ParseUnsigned(s[1..]) == Some(v)
    ensures ParseInt(s) == Some(-(v as int))
  {
  }

  lemma ParseIntOfNegativeDigits(d: string)
    requires d != [] && AllDigits(d)
    ensures ParseInt("-" + d) == Some(-(DigitsValue(d) as int))
  {
    var s := "-" + d;
    assert s[1..] == d;
    UnsignedOfDigits(d);
    assert Strip(s) == s by {
      assert s[|s| - 1] == d[|d| - 1];
      StripOfNoSpaceEnds(s);
    }
    ParseIntOfStrippedNegative(s, DigitsValue(d));
  }

  /** `int(str(n)) == n`. */
  lemma ParseIntOfIntToString(n: int)
    ensures ParseInt(IntToString(n)) == Some(n)
  {
    var m: nat := if n < 0 then -n else n;
    DigitsValueOfNatToString(m);
    if n < 0 {
      ParseIntOfNegativeDigits(NatToString(m));
    } else {
      ParseIntOfDigits(NatToString(m));
    }
  }

  /** `int()` ignores the whitespace around its argument, such as the padding of a column. */
  lemma ParseIntPadded(a: string, s: string, b: string)
    requires IsBlank(a) && IsBlank(b)
    ensures ParseInt(a + s + b) == ParseInt(s)
  {
    assert Strip(a + s + b) == Strip(s) by { StripPadded(a, s, b); }
  }

  /** `int()` reads a right-justified number like the number itself. */
  lemma ParseIntRJust(s: string, w: int)
    ensures ParseInt(RJust(s, w)) == ParseInt(s)
  {
    if |s| >= w {
      assert RJust(s, w) == s;
    } else {
      var a := Spaces(w - |s|);
      ParseIntPadded(a, s, "");
      assert a + s + "" == RJust(s, w);
    }
  }

  /** `FirstIndex` is the first position holding `c`. */
  lemma {:induction false} FirstIndexIs(s: string, c: char, j: nat)
    requires j < |s| && s[j] == c && c !in s[..j]
    ensures c in s && FirstIndex(s, c) == j
  {
    if j > 0 {
      assert s[..j] == [s[0]] + s[1..j];
      assert s[1..][j - 1] == c;
      assert s[1..][..j - 1] == s[1..j];
      FirstIndexIs(s[1..], c, j - 1);
    }
  }

  /** Splitting at `c` undoes joining with `c`. */
  lemma {:induction false} SplitJoin(xs: seq<string>, c: char)
    requires |xs| >= 1
    requires forall k :: 0 <= k < |xs| ==> c !in xs[k]
    ensures Split(Join([c], xs), c) == xs
    decreases |xs|
  {
    if |xs| > 1 {
      var s := Join([c], xs);
      assert s == xs[0] + ([c] + Join([c], xs[1..]));
      assert s[|xs[0]|] == c;
      assert s[..|xs[0]|] == xs[0];
      FirstIndexIs(s, c, |xs[0]|);
      var k := FirstIndex(s, c);
      assert s[k + 1..] == Join([c], xs[1..]);
      SplitJoin(xs[1..], c);
    }
  }

  lemma FirstIndexAppend(a: string, c: char, b: string)
    requires c !in a
    ensures c in a + [c] + b && FirstIndex(a + [c] + b, c) == |a|
  {
    var s := a + [c] + b;
    assert s[|a|] == c;
    assert s[..|a|] == a;
    FirstIndexIs(s, c, |a|);
  }

  /** The file lines of text that ends with a newline split where the text does. */
  lemma FileLinesAppend(a: string, b: string)
    requires a == [] || a[|a| - 1] == '\n'
    ensures FileLines(a + b) == FileLines(a) + FileLines(b)
    decreases |a|
  {
    if a != [] {
      assert '\n' in a;
      var k := FirstIndex(a, '\n');
      var s := a + b;
      assert s[..k + 1] == a[..k + 1];
      assert s[k] == '\n';
      assert s[..k] == a[..k];
      FirstIndexIs(s, '\n', k);
      assert s[k + 1..] == a[k + 1..] + b;
      FileLinesAppend(a[k + 1..], b);
    } else {
      assert a + b == b;
    }
  }

  lemma FileLinesOfLine(w: string)
    requires '\n' !in w
    ensures FileLines(w + "\n") == [w + "\n"]
  {
    FirstIndexAppend(w, '\n', []);
    assert w + "\n" == w + ['\n'] + [];
    assert (w + "\n")[|w| + 1..] == [];
  }

  /** Text without the pattern's first character is left alone by `replace`. */
  lemma {:induction false} ReplaceAllFree(s: string, pat: string, rep: string)
    requires pat != [] && pat[0] !in s
    ensures ReplaceAll(s, pat, rep) == s
    decreases |s|
  {
    if |s| >= |pat| {
      assert s[..|pat|][0] == s[0];
      ReplaceAllFree(s[1..], pat, rep);
      assert [s[0]] + s[1..] == s;
    }
  }

  /** `replace` passes over a prefix free of the pattern's first character. */
  lemma {:induction false} ReplaceAllAfterFree(a: string, b: string, pat: string, rep: string)
    requires pat != [] && pat[0] !in a
    ensures ReplaceAll(a + b, pat, rep) == a + ReplaceAll(b, pat, rep)
    decreases |a|
  {
    if a != [] {
      var s := a + b;
      assert s[0] == a[0];
      assert s[1..] == a[1..] + b;
      if |s| >= |pat| {
        assert s[..|pat|][0] == a[0];
      }
      ReplaceAllAfterFree(a[1..], b, pat, rep);
      assert [a[0]] + (a[1..] + ReplaceAll(b, pat, rep)) == a + ReplaceAll(b, pat, rep);
    } else {
      assert a + b == b;
    }
  }

  /** An occurrence of the pattern at the front is replaced. */
  lemma ReplaceAllAtFront(pat: string, b: string, rep: string)
    requires pat != []
    ensures ReplaceAll(pat + b, pat, rep) == rep + ReplaceAll(b, pat, rep)
  {
    assert (pat + b)[..|pat|] == pat;
    assert (pat + b)[|pat|..] == b;
  }

  /** Splitting at the first separator. */
  lemma SplitAtFirst(a: string, c: char, rest: string)
    requires c !in a
    ensures Split(a + [c] + rest, c) == [a] + Split(rest, c)
  {
    FirstIndexAppend(a, c, rest);
    var s := a + [c] + rest;
    assert s[..|a|] == a;
    assert s[|a| + 1..] == rest;
  }

  /** Each string of `xs` with `q` in front. */
  function Prefixed(q: string, xs: seq<string>): (r: seq<string>)
    ensures |r| == |xs| && forall k :: 0 <= k < |xs| ==> r[k] == q + xs[k]
    decreases |xs|
  {
    if xs == [] then [] else [q + xs[0]] + Prefixed(q, xs[1..])
  }

  /** Splitting a `", "`-joined list at the commas: every piece after the
      first keeps the space that followed its comma. */
  lemma {:induction false} SplitCommaJoin(p: string, xs: seq<string>)
    requires |xs| >= 1 && ',' !in p
    requires forall k :: 0 <= k < |xs| ==> ',' !in xs[k]
    ensures Split(p + Join(", ", xs), ',') == [p + xs[0]] + Prefixed(" ", xs[1..])
    decreases |xs|
  {
    if |xs| == 1 {
      assert ',' !in p + xs[0];
    } else {
      var rest := Join(", ", xs[1..]);
      assert p + Join(", ", xs) == (p + xs[0]) + [','] + (" " + rest);
      assert ',' !in p + xs[0];
      SplitAtFirst(p + xs[0], ',', " " + rest);
      SplitCommaJoin(" ", xs[1..]);
      assert xs[1..][1..] == xs[2..];
    }
  }

  /** A character in neither the separator nor any piece is not in the join. */
  lemma {:induction false} JoinFree(sep: string, xs: seq<string>, c: char)
    requires c !in sep && forall k :: 0 <= k < |xs| ==> c !in xs[k]
    ensures c !in Join(sep, xs)
    decreases |xs|
  {
    if |xs| > 1 {
      JoinFree(sep, xs[1..], c);
    }
  }

  lemma LJustPads(s: string, w: int)
    ensures LJust(s, w) == s + Spaces(Max(|s|, w) - |s|)
  {
    if |s| >= w {
      assert s + Spaces(0) == s;
    }
  }

  lemma SpacesAppend(a: nat, b: nat)
    ensures Spaces(a) + Spaces(b) == Spaces(a + b)
  {
  }

  /** `"".join(xs)`. */
  function Concat(xs: seq<string>): string
    decreases |xs|
  {
    if xs == [] then "" else xs[0] + Concat(xs[1..])
  }
}
