/** The line scanner of `ParFile.read` run over the text `ParFile.write`
    produces: which cards it collects from each section of a written file,
    and where a file written without a closing blank line makes it stop. */
module ParScanBack {
  import opened Text
  import opened ParFormat
  import opened ChannelRadii
  import opened ParScan
  import opened ParData
  import opened ParRoundTrip

  // ---- positions in the lines ----------------------------------------------------

  /** Lines that `read` keeps whole inside a section: none holds a newline
      and none is blank (a blank line ends the section). */
  predicate CardRun(xs: seq<string>) {
    forall k :: 0 <= k < |xs| ==> '\n' !in xs[k] && !IsBlank(xs[k])
  }

  /** The lines `xs` sit in `L` from position `i` on. */
  predicate At(L: seq<string>, i: nat, xs: seq<string>) {
    i + |xs| <= |L| && L[i..i + |xs|] == xs
  }

  lemma {:induction false} AtSplit(L: seq<string>, i: nat, a: seq<string>, b: seq<string>)
    requires At(L, i, a + b)
    ensures At(L, i, a) && At(L, i + |a|, b)
  {
    assert L[i..i + |a|] == L[i..i + |a| + |b|][..|a|];
    assert L[i + |a|..i + |a| + |b|] == L[i..i + |a| + |b|][|a|..];
  }

  /** The same split, the second piece named by its position `j`. */
  lemma {:induction false} AtSplitAt(L: seq<string>, i: nat, j: nat, a: seq<string>, b: seq<string>)
    requires j == i + |a| && At(L, i, a + b)
    ensures At(L, i, a) && At(L, j, b)
  {
    AtSplit(L, i, a, b);
  }

  lemma {:induction false} AtIndex(L: seq<string>, i: nat, xs: seq<string>, k: nat)
    requires At(L, i, xs) && k < |xs|
    ensures i + k < |L| && L[i + k] == xs[k]
  {
    assert L[i..i + |xs|][k] == L[i + k];
  }

  /** The whole of `L` read as consecutive pieces. */
  lemma {:induction false} AtWhole(L: seq<string>)
    ensures At(L, 0, L)
  {
    assert L[0..|L|] == L;
  }

  // ---- one line --------------------------------------------------------------------

  /** A written line with its newline: `replace` takes the newline out, or
      turns it into a space. */
  lemma {:induction false} ChompEnded(c: string)
    requires '\n' !in c
    ensures Chomp(c + "\n") == c && Spaced(c + "\n") == c + " "
  {
    ReplaceAllAfterFree(c, "\n", "\n", "");
    ReplaceAllAfterFree(c, "\n", "\n", " ");
    ReplaceAllAtFront("\n", [], "");
    ReplaceAllAtFront("\n", [], " ");
    assert "\n" + [] == "\n";
    assert c + "" == c;
  }

  /** A card turned into text ending in a space is left alone by `replace`. */
  lemma {:induction false} SpacedFree(c: string)
    requires '\n' !in c
    ensures Spaced(c + " ") == c + " "
  {
    ReplaceAllFree(c + " ", "\n", " ");
  }

  /** A blank line is no section header: the header starts with a letter. */
  lemma {:induction false} BlankNoHeader(line: string, h: string)
    requires IsBlank(line) && h != [] && !IsSpace(h[0])
    ensures !Header(line, h)
  {
    if |h| <= |line| {
      assert Upper(line)[..|h|][0] == UpperChar(line[0]);
    }
  }

  /** A line whose first letter differs from the header's is not that header. */
  lemma {:induction false} FirstNoHeader(line: string, h: string)
    requires line != [] && h != [] && UpperChar(line[0]) != h[0]
    ensures !Header(line, h)
  {
    if |h| <= |line| {
      assert Upper(line)[..|h|][0] == UpperChar(line[0]);
    }
  }

  /** A line whose first `|h|` characters turn into `h` in upper case is that header. */
  lemma {:induction false} PrefixHeader(line: string, h: string)
    requires |h| <= |line| && forall k :: 0 <= k < |h| ==> UpperChar(line[k]) == h[k]
    ensures Header(line, h)
  {
    assert Upper(line)[..|h|] == h;
  }

  // ---- a section's cards -------------------------------------------------------------

  /** A card of a section as the loop keeps it: as written, or followed by
      a space for the radii. */
  function KeptOne(x: string, spaced: bool): string {
    if spaced then x + " " else x
  }

  /** The cards of a section as the loop collects them. */
  function Kept(xs: seq<string>, spaced: bool): (r: seq<string>)
    ensures |r| == |xs| && forall k :: 0 <= k < |xs| ==> r[k] == KeptOne(xs[k], spaced)
  {
    seq(|xs|, k requires 0 <= k < |xs| => KeptOne(xs[k], spaced))
  }

  lemma {:induction false} KeptCons(xs: seq<string>, spaced: bool)
    requires xs != []
    ensures Kept(xs, spaced) == [KeptOne(xs[0], spaced)] + Kept(xs[1..], spaced)
  {
    var r := [KeptOne(xs[0], spaced)] + Kept(xs[1..], spaced);
    forall k | 0 <= k < |xs| ensures Kept(xs, spaced)[k] == r[k] {
      if k > 0 {
        assert r[k] == Kept(xs[1..], spaced)[k - 1];
      }
    }
  }

  /** One pass of the loop over a written card; the loop goes on at line `n`. */
  lemma {:induction false} BlockWalkStep(L: seq<string>, m: nat, n: nat, x: string, acc: seq<string>, spaced: bool)
    requires n == m + 1 && m < |L| && L[m] == x + "\n" && '\n' !in x && !IsBlank(x)
    ensures BlockWalk(L, m, acc, spaced) == BlockWalk(L, n, acc + [KeptOne(x, spaced)], spaced)
  {
    EndedNotBlank(x);
    ChompEnded(x);
  }

  /** The loop of a section over written cards followed by a blank line
      collects every card and stops at the blank line. */
  lemma {:induction false} BlockWalkRun(L: seq<string>, m: nat, xs: seq<string>, acc: seq<string>, spaced: bool)
    requires CardRun(xs) && At(L, m, Ended(xs)) && m + |xs| < |L| && IsBlank(L[m + |xs|])
    ensures BlockWalk(L, m, acc, spaced) == Some((m + |xs|, acc + Kept(xs, spaced)))
    decreases |xs|
  {
    if xs == [] {
      assert acc + Kept(xs, spaced) == acc;
    } else {
      var x, rest := xs[0], xs[1..];
      var n: nat := m + 1;
      RunTail(L, m, n, xs);
      BlockWalkStep(L, m, n, x, acc, spaced);
      var acc2 := acc + [KeptOne(x, spaced)];
      BlockWalkRun(L, n, rest, acc2, spaced);
      KeptCons(xs, spaced);
      assert acc2 + Kept(rest, spaced) == acc + Kept(xs, spaced);
      WalkEnd(L, m, n, xs, rest, acc, spaced, acc + Kept(xs, spaced));
    }
  }

  /** The first written card and the run after it, which starts at `n = m + 1`. */
  lemma {:induction false} RunTail(L: seq<string>, m: nat, n: nat, xs: seq<string>)
    requires n == m + 1 && xs != [] && CardRun(xs) && At(L, m, Ended(xs)) && m + |xs| < |L| && IsBlank(L[m + |xs|])
    ensures m < |L| && L[m] == xs[0] + "\n" && '\n' !in xs[0] && !IsBlank(xs[0])
    ensures CardRun(xs[1..]) && At(L, n, Ended(xs[1..])) && n + |xs[1..]| < |L| && IsBlank(L[n + |xs[1..]|])
  {
    var x, rest := xs[0], xs[1..];
    AtIndex(L, m, Ended(xs), 0);
    assert Ended(xs) == [x + "\n"] + Ended(rest);
    AtSplit(L, m, [x + "\n"], Ended(rest));
    assert CardRun(rest) by {
      assert forall k :: 0 <= k < |rest| ==> rest[k] == xs[k + 1];
    }
  }

  /** Where the loop that went on at `n = m + 1` stops, counted from `m`. */
  lemma {:induction false} WalkEnd(L: seq<string>, m: nat, n: nat, xs: seq<string>, rest: seq<string>, acc: seq<string>, spaced: bool, v: seq<string>)
    requires n == m + 1 && |xs| == 1 + |rest|
    requires BlockWalk(L, m, acc, spaced) == (var j: nat := n + |rest|; Some((j, v)))
    ensures BlockWalk(L, m, acc, spaced) == Some((m + |xs|, v))
  {
  }

  /** The loop of a section over written cards that end the file runs off
      its end: `next` raises. */
  lemma {:induction false} BlockWalkOff(L: seq<string>, m: nat, xs: seq<string>, acc: seq<string>, spaced: bool)
    requires CardRun(xs) && At(L, m, Ended(xs)) && m + |xs| == |L|
    ensures BlockWalk(L, m, acc, spaced) == None
    decreases |xs|
  {
    if xs != [] {
      var x := xs[0];
      AtIndex(L, m, Ended(xs), 0);
      EndedNotBlank(x);
      assert Ended(xs) == [x + "\n"] + Ended(xs[1..]);
      AtSplit(L, m, [x + "\n"], Ended(xs[1..]));
      assert CardRun(xs[1..]) by {
        assert forall k :: 0 <= k < |xs| - 1 ==> xs[1..][k] == xs[k + 1];
      }
      BlockWalkOff(L, m + 1, xs[1..], acc + [if spaced then Spaced(L[m]) else Chomp(L[m])], spaced);
    }
  }

  lemma {:induction false} NotBlankAppend(x: string, y: string)
    requires !IsBlank(x)
    ensures !IsBlank(x + y)
  {
    var i :| 0 <= i < |x| && !IsSpace(x[i]);
    assert (x + y)[i] == x[i];
  }

  // ---- the headers -------------------------------------------------------------------

  /** A blank line opens no section. */
  lemma {:induction false} BlankOpensNothing(line: string)
    requires IsBlank(line)
    ensures !Header(line, PairKey) && !Header(line, SpinKey) && !Header(line, ResonanceKey)
    ensures !Header(line, RadiiKey) && !Header(line, IsotopeKey)
  {
    BlankNoHeader(line, PairKey);
    BlankNoHeader(line, SpinKey);
    BlankNoHeader(line, ResonanceKey);
    BlankNoHeader(line, RadiiKey);
    BlankNoHeader(line, IsotopeKey);
  }

  /** A line that starts with `t` carries every header `t` spells in upper case. */
  lemma {:induction false} TextHeader(line: string, t: string, h: string)
    requires StartsWith(line, t) && |h| <= |t| && forall k :: 0 <= k < |h| ==> UpperChar(t[k]) == h[k]
    ensures Header(line, h)
  {
    forall k | 0 <= k < |h| ensures UpperChar(line[k]) == h[k] {
      assert line[k] == line[..|t|][k];
    }
    PrefixHeader(line, h);
  }

  lemma {:induction false} PairHeaderLine()
    ensures Header(PairHeader + "\n", PairKey)
  {
    var line := PairHeader + "\n";
    assert line[..|PairHeader|] == PairHeader;
    TextHeader(line, PairHeader, PairKey);
  }

  lemma {:induction false} SpinHeaderLine()
    ensures !Header(SpinHeader + "\n", PairKey) && Header(SpinHeader + "\n", SpinKey)
  {
    var line := SpinHeader + "\n";
    assert line[..|SpinHeader|] == SpinHeader;
    FirstNoHeader(line, PairKey);
    TextHeader(line, SpinHeader, SpinKey);
  }

  lemma {:induction false} ResonanceHeaderLine()
    ensures !Header(ResonanceHeader + "\n", PairKey) && !Header(ResonanceHeader + "\n", SpinKey)
    ensures Header(ResonanceHeader + "\n", ResonanceKey)
  {
    var line := ResonanceHeader + "\n";
    assert line[..|ResonanceHeader|] == ResonanceHeader;
    FirstNoHeader(line, PairKey);
    FirstNoHeader(line, SpinKey);
    TextHeader(line, ResonanceHeader, ResonanceKey);
  }

  lemma {:induction false} RadiiHeaderLine()
    ensures !Header(RadiiHeader + "\n", PairKey) && !Header(RadiiHeader + "\n", SpinKey)
    ensures !Header(RadiiHeader + "\n", ResonanceKey) && Header(RadiiHeader + "\n", RadiiKey)
  {
    var line := RadiiHeader + "\n";
    FirstNoHeader(line, PairKey);
    FirstNoHeader(line, SpinKey);
    FirstNoHeader(line, ResonanceKey);
    RadiiKeyLine();
  }

  lemma {:induction false} RadiiKeyLine()
    ensures Header(RadiiHeader + "\n", RadiiKey)
  {
    var line := RadiiHeader + "\n";
    var t := "Channel radii in key-word format";
    assert line[..|t|] == t;
    TextHeader(line, t, RadiiKey);
  }

  lemma {:induction false} IsotopeHeaderLine()
    ensures !Header(IsotopeHeader + "\n", PairKey) && !Header(IsotopeHeader + "\n", SpinKey)
    ensures !Header(IsotopeHeader + "\n", ResonanceKey) && !Header(IsotopeHeader + "\n", RadiiKey)
    ensures Header(IsotopeHeader + "\n", IsotopeKey)
  {
    var line := IsotopeHeader + "\n";
    FirstNoHeader(line, PairKey);
    FirstNoHeader(line, SpinKey);
    FirstNoHeader(line, ResonanceKey);
    FirstNoHeader(line, RadiiKey);
    IsotopeKeyLine();
  }

  lemma {:induction false} IsotopeKeyLine()
    ensures Header(IsotopeHeader + "\n", IsotopeKey)
  {
    var line := IsotopeHeader + "\n";
    var t := "ISOTOPIC MASSES AND ABUNDANCES FOLLOW";
    assert line[..|t|] == t;
    TextHeader(line, t, IsotopeKey);
  }

  // ---- one pass of the loop body -----------------------------------------------------

  /** An `if` whose header the line does not carry leaves everything to the next. */
  lemma {:induction false} PassPairs(L: seq<string>, i: nat, st: ScanState)
    requires i < |L| && !Header(L[i], PairKey)
    ensures ScanFrom(L, i, st) == AfterPairs(L, i, L[i], st)
  {
  }

  lemma {:induction false} PassSpin(L: seq<string>, c: nat, l: string, st: ScanState)
    requires c < |L| && !Header(l, SpinKey)
    ensures AfterPairs(L, c, l, st) == AfterSpin(L, c, l, st)
  {
    assert st.(cards := st.cards.(spin := st.cards.spin)) == st;
  }

  lemma {:induction false} PassResonances(L: seq<string>, c: nat, l: string, st: ScanState)
    requires c < |L| && !Header(l, ResonanceKey)
    ensures AfterSpin(L, c, l, st) == AfterResonances(L, c, l, st)
  {
    assert st.(cards := st.cards.(resonances := st.cards.resonances)) == st;
  }

  lemma {:induction false} PassRadii(L: seq<string>, c: nat, l: string, st: ScanState)
    requires c < |L| && !Header(l, RadiiKey)
    ensures AfterResonances(L, c, l, st) == AfterRadii(L, c, l, st)
  {
    assert st.(cards := st.cards.(radii := st.cards.radii)) == st;
  }

  lemma {:induction false} PassIsotopes(L: seq<string>, c: nat, l: string, st: ScanState)
    requires c < |L| && !Header(l, IsotopeKey)
    ensures AfterRadii(L, c, l, st) == ScanFrom(L, c + 1, st)
  {
    assert st.(cards := st.cards.(isotopes := st.cards.isotopes)) == st;
  }

  /** The `if`s after a section end on the blank line that closed it, change
      nothing, and the loop goes on with the next line. */
  lemma {:induction false} AfterResonancesBlank(L: seq<string>, c: nat, l: string, st: ScanState)
    requires c < |L| && IsBlank(l)
    ensures AfterResonances(L, c, l, st) == ScanFrom(L, c + 1, st)
  {
    BlankOpensNothing(l);
    PassRadii(L, c, l, st);
    PassIsotopes(L, c, l, st);
  }

  lemma {:induction false} AfterSpinBlank(L: seq<string>, c: nat, l: string, st: ScanState)
    requires c < |L| && IsBlank(l)
    ensures AfterSpin(L, c, l, st) == ScanFrom(L, c + 1, st)
  {
    BlankOpensNothing(l);
    PassResonances(L, c, l, st);
    AfterResonancesBlank(L, c, l, st);
  }

  lemma {:induction false} AfterPairsBlank(L: seq<string>, c: nat, l: string, st: ScanState)
    requires c < |L| && IsBlank(l)
    ensures AfterPairs(L, c, l, st) == ScanFrom(L, c + 1, st)
  {
    BlankOpensNothing(l);
    PassSpin(L, c, l, st);
    AfterSpinBlank(L, c, l, st);
  }

  /** A blank line outside the sections is passed over. */
  lemma {:induction false} ScanBlank(L: seq<string>, i: nat, st: ScanState)
    requires i < |L| && IsBlank(L[i])
    ensures ScanFrom(L, i, st) == ScanFrom(L, i + 1, st)
  {
    BlankOpensNothing(L[i]);
    PassPairs(L, i, st);
    AfterPairsBlank(L, i, L[i], st);
  }

  /** The same, the scan going on at `j = i + 1`. */
  lemma {:induction false} ScanBlankTo(L: seq<string>, i: nat, j: nat, st: ScanState)
    requires j == i + 1 && i < |L| && IsBlank(L[i])
    ensures ScanFrom(L, i, st) == ScanFrom(L, j, st)
  {
    ScanBlank(L, i, st);
  }

  /** The cards of a section at `i + 1`, closed by a blank line. */
  predicate Block(L: seq<string>, i: nat, xs: seq<string>) {
    CardRun(xs) && At(L, i + 1, Ended(xs)) && i + 1 + |xs| < |L| && IsBlank(L[i + 1 + |xs|])
  }

  /** A section read by a `while line.strip()` loop: its cards are appended
      and the `if`s after it see the blank line that closed it. */
  lemma {:induction false} SimpleIfBlock(L: seq<string>, c: nat, h: string, acc: seq<string>, xs: seq<string>)
    requires c < |L| && Header(L[c], h) && Block(L, c, xs)
    ensures c + 1 + |xs| < |L|
    ensures var k: nat := c + 1 + |xs|; SimpleIf(L, c, L[c], h, acc) == Some((k, L[k], acc + xs))
  {
    BlockWalkRun(L, c + 1, xs, acc, false);
    assert Kept(xs, false) == xs;
  }

  /** The spin-group `if` that collected `xs` hands on to the next `if`
      at the line that closed the section. */
  lemma {:induction false} SpinIf(L: seq<string>, c: nat, l: string, st: ScanState, xs: seq<string>)
    requires c + 1 + |xs| < |L|
    requires SimpleIf(L, c, l, SpinKey, st.cards.spin) == (var k: nat := c + 1 + |xs|; Some((k, L[k], st.cards.spin + xs)))
    ensures var k: nat := c + 1 + |xs|;
      AfterPairs(L, c, l, st) == AfterSpin(L, k, L[k], st.(cards := st.cards.(spin := st.cards.spin + xs)))
  {
  }

  /** The resonance `if` that collected `xs` hands on to the next `if`. */
  lemma {:induction false} ResonancesIf(L: seq<string>, c: nat, l: string, st: ScanState, xs: seq<string>)
    requires c + 1 + |xs| < |L|
    requires SimpleIf(L, c, l, ResonanceKey, st.cards.resonances) == (var k: nat := c + 1 + |xs|; Some((k, L[k], st.cards.resonances + xs)))
    ensures var k: nat := c + 1 + |xs|;
      AfterSpin(L, c, l, st) == AfterResonances(L, k, L[k], st.(cards := st.cards.(resonances := st.cards.resonances + xs)))
  {
  }

  /** The radii `if` that collected `xs` hands on to the last `if`. */
  lemma {:induction false} RadiiIfStep(L: seq<string>, c: nat, l: string, st: ScanState, xs: seq<string>)
    requires c + 1 + |xs| < |L|
    requires RadiiIf(L, c, l, st.cards.radii) == (var k: nat := c + 1 + |xs|; Some((k, L[k], st.cards.radii + AsCards(xs))))
    ensures var k: nat := c + 1 + |xs|;
      AfterResonances(L, c, l, st) == AfterRadii(L, k, L[k], st.(cards := st.cards.(radii := st.cards.radii + AsCards(xs))))
  {
  }

  /** The isotope `if` that collected `xs` lets the loop go on after the
      line that closed the section. */
  lemma {:induction false} IsotopesIf(L: seq<string>, c: nat, l: string, st: ScanState, xs: seq<string>)
    requires c + 1 + |xs| < |L|
    requires SimpleIf(L, c, l, IsotopeKey, st.cards.isotopes) == (var k: nat := c + 1 + |xs|; Some((k, L[k], st.cards.isotopes + xs)))
    ensures AfterRadii(L, c, l, st) == ScanFrom(L, c + 1 + |xs| + 1, st.(cards := st.cards.(isotopes := st.cards.isotopes + xs)))
  {
  }

  /** The blank line that closes a section read from line `c` on lets the
      loop go on after it, from whichever `if` comes next. */
  lemma {:induction false} AfterSpinPast(L: seq<string>, c: nat, xs: seq<string>, st: ScanState)
    requires c + 1 + |xs| < |L| && IsBlank(L[c + 1 + |xs|])
    ensures var k: nat := c + 1 + |xs|; AfterSpin(L, k, L[k], st) == ScanFrom(L, c + 1 + |xs| + 1, st)
  {
    AfterSpinBlank(L, c + 1 + |xs|, L[c + 1 + |xs|], st);
  }

  lemma {:induction false} AfterResonancesPast(L: seq<string>, c: nat, xs: seq<string>, st: ScanState)
    requires c + 1 + |xs| < |L| && IsBlank(L[c + 1 + |xs|])
    ensures var k: nat := c + 1 + |xs|; AfterResonances(L, k, L[k], st) == ScanFrom(L, c + 1 + |xs| + 1, st)
  {
    AfterResonancesBlank(L, c + 1 + |xs|, L[c + 1 + |xs|], st);
  }

  lemma {:induction false} AfterRadiiPast(L: seq<string>, c: nat, xs: seq<string>, st: ScanState)
    requires c + 1 + |xs| < |L| && IsBlank(L[c + 1 + |xs|])
    ensures var k: nat := c + 1 + |xs|; AfterRadii(L, k, L[k], st) == ScanFrom(L, c + 1 + |xs| + 1, st)
  {
    BlankOpensNothing(L[c + 1 + |xs|]);
    PassIsotopes(L, c + 1 + |xs|, L[c + 1 + |xs|], st);
  }

  /** The spin-group header: its cards are appended to the spin-group cards. */
  lemma {:induction false} ScanSpinAt(L: seq<string>, i: nat, st: ScanState, xs: seq<string>)
    requires i < |L| && !Header(L[i], PairKey) && Header(L[i], SpinKey) && Block(L, i, xs)
    ensures ScanFrom(L, i, st) == ScanFrom(L, i + 1 + |xs| + 1, st.(cards := st.cards.(spin := st.cards.spin + xs)))
  {
    SimpleIfBlock(L, i, SpinKey, st.cards.spin, xs);
    SpinStep(L, i, st, xs);
  }

  /** The loop body at a spin-group header whose `if` collected `xs`. */
  lemma {:induction false} SpinStep(L: seq<string>, i: nat, st: ScanState, xs: seq<string>)
    requires i + 1 + |xs| < |L| && IsBlank(L[i + 1 + |xs|]) && !Header(L[i], PairKey)
    requires SimpleIf(L, i, L[i], SpinKey, st.cards.spin) == (var k: nat := i + 1 + |xs|; Some((k, L[k], st.cards.spin + xs)))
    ensures ScanFrom(L, i, st) == ScanFrom(L, i + 1 + |xs| + 1, st.(cards := st.cards.(spin := st.cards.spin + xs)))
  {
    PassPairs(L, i, st);
    SpinIf(L, i, L[i], st, xs);
    AfterSpinPast(L, i, xs, st.(cards := st.cards.(spin := st.cards.spin + xs)));
  }

  /** The resonance header: its cards are appended to the resonance cards. */
  lemma {:induction false} ScanResonancesAt(L: seq<string>, i: nat, st: ScanState, xs: seq<string>)
    requires i < |L| && !Header(L[i], PairKey) && !Header(L[i], SpinKey) && Header(L[i], ResonanceKey) && Block(L, i, xs)
    ensures ScanFrom(L, i, st) == ScanFrom(L, i + 1 + |xs| + 1, st.(cards := st.cards.(resonances := st.cards.resonances + xs)))
  {
    SimpleIfBlock(L, i, ResonanceKey, st.cards.resonances, xs);
    ResonancesStep(L, i, st, xs);
  }

  /** The loop body at a resonance header whose `if` collected `xs`. */
  lemma {:induction false} ResonancesStep(L: seq<string>, i: nat, st: ScanState, xs: seq<string>)
    requires i + 1 + |xs| < |L| && IsBlank(L[i + 1 + |xs|]) && !Header(L[i], PairKey) && !Header(L[i], SpinKey)
    requires SimpleIf(L, i, L[i], ResonanceKey, st.cards.resonances) == (var k: nat := i + 1 + |xs|; Some((k, L[k], st.cards.resonances + xs)))
    ensures ScanFrom(L, i, st) == ScanFrom(L, i + 1 + |xs| + 1, st.(cards := st.cards.(resonances := st.cards.resonances + xs)))
  {
    PassPairs(L, i, st);
    PassSpin(L, i, L[i], st);
    ResonancesIf(L, i, L[i], st, xs);
    AfterResonancesPast(L, i, xs, st.(cards := st.cards.(resonances := st.cards.resonances + xs)));
  }

  /** The radii header: its first card is taken with its newline already a
      space, the others in the loop; each is kept followed by a space. */
  lemma {:induction false} RadiiIfCards(L: seq<string>, c: nat, acc: seq<string>, xs: seq<string>)
    requires c < |L| && Header(L[c], RadiiKey) && Block(L, c, xs) && xs != []
    ensures c + 1 + |xs| < |L|
    ensures var k: nat := c + 1 + |xs|; RadiiIf(L, c, L[c], acc) == Some((k, L[k], acc + AsCards(xs)))
  {
    var x, rest := xs[0], xs[1..];
    var c1: nat := c + 1;
    var c2: nat := c + 2;
    BlockAt(L, c, c1, xs);
    RunTail(L, c1, c2, xs);
    RadiiIfOpen(L, c, c1, c2, acc, x);
    BlockWalkRun(L, c2, rest, acc + [x + " "], true);
    RadiiShift(L, c, c2, acc, x, rest, xs);
    KeptCons(xs, true);
    assert Kept(xs, true) == AsCards(xs);
  }

  /** The cards of a section that starts at `c1 = c + 1`. */
  lemma {:induction false} BlockAt(L: seq<string>, c: nat, c1: nat, xs: seq<string>)
    requires c1 == c + 1 && Block(L, c, xs)
    ensures CardRun(xs) && At(L, c1, Ended(xs)) && c1 + |xs| < |L| && IsBlank(L[c1 + |xs|])
  {
  }

  /** The radii header over a first written card at `c1`: the card is kept
      followed by a space and the loop goes on at `c2`. */
  lemma {:induction false} RadiiIfOpen(L: seq<string>, c: nat, c1: nat, c2: nat, acc: seq<string>, x: string)
    requires c1 == c + 1 && c2 == c + 2 && c < |L| && Header(L[c], RadiiKey)
    requires c1 < |L| && L[c1] == x + "\n" && '\n' !in x && !IsBlank(x)
    ensures RadiiIf(L, c, L[c], acc) ==
      match BlockWalk(L, c2, acc + [x + " "], true)
      case None => None
      case Some((k, acc2)) => Some((k, L[k], acc2))
  {
    ChompEnded(x);
    NotBlankAppend(x, " ");
    SpacedFree(x);
  }

  /** The radii walk, started one card in at `c2 = c + 2`, ends where the
      whole section does. */
  lemma {:induction false} RadiiShift(L: seq<string>, c: nat, c2: nat, acc: seq<string>, x: string, rest: seq<string>, xs: seq<string>)
    requires c2 == c + 2 && xs == [x] + rest && c2 + |rest| < |L|
    requires RadiiIf(L, c, L[c], acc) ==
      match BlockWalk(L, c2, acc + [x + " "], true)
      case None => None
      case Some((k, acc2)) => Some((k, L[k], acc2))
    requires BlockWalk(L, c2, acc + [x + " "], true) == Some((c2 + |rest|, acc + [x + " "] + Kept(rest, true)))
    ensures var k: nat := c + 1 + |xs|; RadiiIf(L, c, L[c], acc) == Some((k, L[k], acc + ([x + " "] + Kept(rest, true))))
  {
    assert c2 + |rest| == c + 1 + |xs|;
    assert acc + [x + " "] + Kept(rest, true) == acc + ([x + " "] + Kept(rest, true));
  }

  /** The radii header: its cards are appended, each followed by a space. */
  lemma {:induction false} ScanRadiiAt(L: seq<string>, i: nat, st: ScanState, xs: seq<string>)
    requires i < |L| && !Header(L[i], PairKey) && !Header(L[i], SpinKey) && !Header(L[i], ResonanceKey)
    requires Header(L[i], RadiiKey) && Block(L, i, xs) && xs != []
    ensures ScanFrom(L, i, st) == ScanFrom(L, i + 1 + |xs| + 1, st.(cards := st.cards.(radii := st.cards.radii + AsCards(xs))))
  {
    RadiiIfCards(L, i, st.cards.radii, xs);
    RadiiStep(L, i, st, xs);
  }

  /** The loop body at a radii header whose `if` collected `xs`. */
  lemma {:induction false} RadiiStep(L: seq<string>, i: nat, st: ScanState, xs: seq<string>)
    requires i + 1 + |xs| < |L| && IsBlank(L[i + 1 + |xs|])
    requires !Header(L[i], PairKey) && !Header(L[i], SpinKey) && !Header(L[i], ResonanceKey)
    requires RadiiIf(L, i, L[i], st.cards.radii) == (var k: nat := i + 1 + |xs|; Some((k, L[k], st.cards.radii + AsCards(xs))))
    ensures ScanFrom(L, i, st) == ScanFrom(L, i + 1 + |xs| + 1, st.(cards := st.cards.(radii := st.cards.radii + AsCards(xs))))
  {
    PassPairs(L, i, st);
    PassSpin(L, i, L[i], st);
    PassResonances(L, i, L[i], st);
    RadiiIfStep(L, i, L[i], st, xs);
    AfterRadiiPast(L, i, xs, st.(cards := st.cards.(radii := st.cards.radii + AsCards(xs))));
  }

  /** The isotope header: its cards are appended to the isotope cards. */
  lemma {:induction false} ScanIsotopesAt(L: seq<string>, i: nat, st: ScanState, xs: seq<string>)
    requires i < |L| && !Header(L[i], PairKey) && !Header(L[i], SpinKey) && !Header(L[i], ResonanceKey)
    requires !Header(L[i], RadiiKey) && Header(L[i], IsotopeKey) && Block(L, i, xs)
    ensures ScanFrom(L, i, st) == ScanFrom(L, i + 1 + |xs| + 1, st.(cards := st.cards.(isotopes := st.cards.isotopes + xs)))
  {
    SimpleIfBlock(L, i, IsotopeKey, st.cards.isotopes, xs);
    IsotopesStep(L, i, st, xs);
  }

  /** The loop body at an isotope header whose `if` collected `xs`. */
  lemma {:induction false} IsotopesStep(L: seq<string>, i: nat, st: ScanState, xs: seq<string>)
    requires i + 1 + |xs| < |L|
    requires !Header(L[i], PairKey) && !Header(L[i], SpinKey) && !Header(L[i], ResonanceKey) && !Header(L[i], RadiiKey)
    requires SimpleIf(L, i, L[i], IsotopeKey, st.cards.isotopes) == (var k: nat := i + 1 + |xs|; Some((k, L[k], st.cards.isotopes + xs)))
    ensures ScanFrom(L, i, st) == ScanFrom(L, i + 1 + |xs| + 1, st.(cards := st.cards.(isotopes := st.cards.isotopes + xs)))
  {
    PassPairs(L, i, st);
    PassSpin(L, i, L[i], st);
    PassResonances(L, i, L[i], st);
    PassRadii(L, i, L[i], st);
    IsotopesIf(L, i, L[i], st, xs);
  }

  /** The isotope header over cards that end the file: `next` raises. */
  lemma {:induction false} ScanIsotopesOffAt(L: seq<string>, i: nat, st: ScanState, xs: seq<string>)
    requires i < |L| && !Header(L[i], PairKey) && !Header(L[i], SpinKey) && !Header(L[i], ResonanceKey)
    requires !Header(L[i], RadiiKey) && Header(L[i], IsotopeKey)
    requires CardRun(xs) && At(L, i + 1, Ended(xs)) && i + 1 + |xs| == |L|
    ensures ScanFrom(L, i, st) == None
  {
    PassPairs(L, i, st);
    PassSpin(L, i, L[i], st);
    PassResonances(L, i, L[i], st);
    PassRadii(L, i, L[i], st);
    BlockWalkOff(L, i + 1, xs, st.cards.isotopes, false);
  }

  // ---- the particle-pair section -------------------------------------------------------

  /** The pairs list after a `Name` card closes the pair collected so far. */
  function Flush(pairs: seq<string>, cur: PairBuf): seq<string> {
    if Truthy(pairs, cur) then pairs + [Joined(pairs, cur)] else pairs
  }

  /** A line starting with `Name` closes the pair collected so far and
      starts a new list of lines. */
  lemma {:induction false} PairLineName(pairs: seq<string>, cur: PairBuf, line: string)
    requires StartsWith(line, "Name") && !cur.CurText?
    ensures PairLine(pairs, cur, line) == Some((Flush(pairs, cur), CurList([line])))
  {
    assert [] + [line] == [line];
  }

  /** Any other line joins the list being collected. */
  lemma {:induction false} PairLineMore(pairs: seq<string>, ls: seq<string>, line: string)
    requires !StartsWith(line, "Name")
    ensures PairLine(pairs, CurList(ls), line) == Some((pairs, CurList(ls + [line])))
  {
  }

  /** One non-blank line through the pair loop. */
  lemma {:induction false} PairWalkStep(L: seq<string>, m: nat, pairs: seq<string>, cur: PairBuf, p: seq<string>, c: PairBuf)
    requires m < |L| && !IsBlank(L[m]) && PairLine(pairs, cur, L[m]) == Some((p, c))
    ensures PairWalk(L, m, pairs, cur) == PairWalk(L, m + 1, p, c)
  {
  }

  /** Three lines, the first naming a pair, pass through the loop. */
  lemma {:induction false} PairThree(L: seq<string>, m: nat, P: seq<string>, pairs: seq<string>, cur: PairBuf)
    requires |P| == 3 && At(L, m, P) && !cur.CurText?
    requires StartsWith(P[0], "Name") && !StartsWith(P[1], "Name") && !StartsWith(P[2], "Name")
    requires !IsBlank(P[0]) && !IsBlank(P[1]) && !IsBlank(P[2])
    ensures PairWalk(L, m, pairs, cur) == PairWalk(L, m + 3, Flush(pairs, cur), CurList(P))
  {
    AtIndex(L, m, P, 0);
    AtIndex(L, m, P, 1);
    AtIndex(L, m, P, 2);
    var F := Flush(pairs, cur);
    PairLineName(pairs, cur, P[0]);
    PairWalkStep(L, m, pairs, cur, F, CurList([P[0]]));
    PairLineMore(F, [P[0]], P[1]);
    assert [P[0]] + [P[1]] == [P[0], P[1]];
    PairWalkStep(L, m + 1, F, CurList([P[0]]), F, CurList([P[0], P[1]]));
    PairLineMore(F, [P[0], P[1]], P[2]);
    assert [P[0], P[1]] + [P[2]] == P;
    PairWalkStep(L, m + 2, F, CurList([P[0], P[1]]), F, CurList(P));
  }

  /** Each written pair's text joined back by the loop, newline kept. */
  function Joins(ps: seq<Record>): (r: seq<string>)
    requires AllHave(ParticlePairFormat, ps)
    ensures |r| == |ps| && forall k :: 0 <= k < |ps| ==> r[k] == PairFilled(ps[k]) + "\n"
  {
    seq(|ps|, k requires 0 <= k < |ps| => PairFilled(ps[k]) + "\n")
  }

  /** The cards `read` collects for written pairs: each pair's three lines
      joined by spaces, the last without its final newline. */
  function PairCards(ps: seq<Record>): (r: seq<string>)
    requires AllHave(ParticlePairFormat, ps) && ps != []
    ensures |r| == |ps|
  {
    Joins(ps[..|ps| - 1]) + [PairFilled(ps[|ps| - 1])]
  }

  lemma {:induction false} AppendAssoc(a: seq<string>, b: seq<string>, c: seq<string>)
    ensures a + b + c == a + (b + c)
  {
  }

  /** Three lines of a pair as the writer leaves them: the first starts with
      `Name`, the others do not, none is blank. */
  predicate Triple(P: seq<string>) {
    && |P| == 3
    && StartsWith(P[0], "Name") && !StartsWith(P[1], "Name") && !StartsWith(P[2], "Name")
    && !IsBlank(P[0]) && !IsBlank(P[1]) && !IsBlank(P[2])
  }

  function Flat(Ts: seq<seq<string>>): seq<string>
    decreases |Ts|
  {
    if Ts == [] then [] else Ts[0] + Flat(Ts[1..])
  }

  /** Each group of lines joined by spaces. */
  function JoinAll(Ts: seq<seq<string>>): (r: seq<string>)
    ensures |r| == |Ts| && forall k :: 0 <= k < |Ts| ==> r[k] == Join(" ", Ts[k])
  {
    seq(|Ts|, k requires 0 <= k < |Ts| => Join(" ", Ts[k]))
  }

  lemma {:induction false} JoinAllCons(Ts: seq<seq<string>>)
    requires Ts != []
    ensures JoinAll(Ts) == [Join(" ", Ts[0])] + JoinAll(Ts[1..])
  {
    var a, b := JoinAll(Ts), [Join(" ", Ts[0])] + JoinAll(Ts[1..]);
    forall k | 0 <= k < |a| ensures a[k] == b[k] {
      if k > 0 {
        assert b[k] == JoinAll(Ts[1..])[k - 1];
        assert Ts[1..][k - 1] == Ts[k];
      }
    }
  }

  /** The pair loop over groups of three lines closed by a blank line: each
      group but the last is joined into the list, the last is still being
      collected when the blank line ends the loop. */
  lemma {:induction false} TriplesRun(L: seq<string>, m: nat, Ts: seq<seq<string>>, pairs: seq<string>, cur: PairBuf)
    requires Ts != [] && (forall k :: 0 <= k < |Ts| ==> Triple(Ts[k])) && !cur.CurText?
    requires At(L, m, Flat(Ts)) && m + |Flat(Ts)| < |L| && IsBlank(L[m + |Flat(Ts)|])
    ensures var r := PairWalk(L, m, pairs, cur);
      && r.Some? && r.value.0 == m + |Flat(Ts)|
      && r.value.1 == Flush(pairs, cur) + JoinAll(Ts[..|Ts| - 1])
      && r.value.2 == CurList(Ts[|Ts| - 1])
    decreases |Ts|
  {
    var P, rest := Ts[0], Ts[1..];
    var F := Flush(pairs, cur);
    assert Triple(P);
    AtSplit(L, m, P, Flat(rest));
    PairThree(L, m, P, pairs, cur);
    if rest == [] {
      assert Flat(rest) == [];
      assert JoinAll(Ts[..0]) == [];
      assert F + [] == F;
    } else {
      assert forall k :: 0 <= k < |rest| ==> rest[k] == Ts[k + 1];
      TriplesRun(L, m + 3, rest, F, CurList(P));
      JoinAllCons(Ts[..|Ts| - 1]);
      assert Ts[..|Ts| - 1][1..] == rest[..|rest| - 1];
      AppendAssoc(F, [Join(" ", P)], JoinAll(rest[..|rest| - 1]));
    }
  }

  /** The three lines of each written pair. */
  function PhysOf(ps: seq<Record>): (Ts: seq<seq<string>>)
    requires AllHave(ParticlePairFormat, ps)
    ensures |Ts| == |ps| && forall k :: 0 <= k < |ps| ==> Ts[k] == PairPhys(ps[k])
  {
    seq(|ps|, k requires 0 <= k < |ps| => PairPhys(ps[k]))
  }

  lemma {:induction false} FlatPhys(ps: seq<Record>)
    requires AllHave(ParticlePairFormat, ps)
    ensures Flat(PhysOf(ps)) == PairsPhys(ps)
    decreases |ps|
  {
    if ps != [] {
      var rest := ps[1..];
      assert forall k :: 0 <= k < |rest| ==> rest[k] == ps[k + 1];
      assert PhysOf(ps)[1..] == PhysOf(rest);
      FlatPhys(rest);
    }
  }

  /** Joined by spaces, the lines of each written pair give its filled
      template and a newline. */
  lemma {:induction false} JoinsPhys(ps: seq<Record>)
    requires PairsOk(ps)
    ensures JoinAll(PhysOf(ps)) == Joins(ps)
  {
    forall k | 0 <= k < |ps| ensures JoinAll(PhysOf(ps))[k] == Joins(ps)[k] {
      PairPhysShape(ps[k]);
    }
  }

  /** The pair loop over the written pairs: every pair but the last is
      joined into the list, the lines of the last are still collected. */
  lemma {:induction false} PairsWalked(L: seq<string>, ps: seq<Record>)
    requires PairsOk(ps) && ps != []
    requires At(L, 1, PairsPhys(ps)) && 1 + |PairsPhys(ps)| < |L| && IsBlank(L[1 + |PairsPhys(ps)|])
    ensures var r := PairWalk(L, 1, [], CurAlias);
      && r.Some? && r.value.0 == 1 + |PairsPhys(ps)|
      && r.value.1 == Joins(ps[..|ps| - 1]) && r.value.2 == CurList(PairPhys(ps[|ps| - 1]))
  {
    var n := |ps|;
    var Ts := PhysOf(ps);
    FlatPhys(ps);
    forall j | 0 <= j < n ensures Triple(Ts[j]) {
      PairPhysShape(ps[j]);
    }
    TriplesRun(L, 1, Ts, [], CurAlias);
    assert Flush([], CurAlias) == [];
    FrontJoins(ps);
    assert [] + JoinAll(Ts[..n - 1]) == Joins(ps[..n - 1]);
  }

  /** The pairs before the last, joined, are the lists of their lines joined. */
  lemma {:induction false} FrontJoins(ps: seq<Record>)
    requires PairsOk(ps) && ps != []
    ensures JoinAll(PhysOf(ps)[..|ps| - 1]) == Joins(ps[..|ps| - 1])
  {
    var front := ps[..|ps| - 1];
    assert PairsOk(front) by {
      assert forall j :: 0 <= j < |front| ==> front[j] == ps[j];
    }
    assert PhysOf(ps)[..|ps| - 1] == PhysOf(front);
    JoinsPhys(front);
  }

  /** `PairFinish` on the lines of the last written pair gives its filled
      template as the last card. */
  lemma {:induction false} PairsFinished(ps: seq<Record>)
    requires PairsOk(ps) && ps != []
    ensures PairFinish(Joins(ps[..|ps| - 1]), CurList(PairPhys(ps[|ps| - 1]))) == (PairCards(ps), CurText(PairFilled(ps[|ps| - 1])))
  {
    var t := PairFilled(ps[|ps| - 1]);
    PairPhysShape(ps[|ps| - 1]);
    assert (t + "\n")[..|t + "\n"| - 1] == t;
  }

  /** The pair `if` at the first line whose loop stops on a blank line with
      a list of lines still collected: that list is joined, its last
      character dropped, and the scan goes on after the blank line. */
  lemma {:induction false} PairsIfWalk(L: seq<string>, k: nat, p: seq<string>, P: seq<string>, p2: seq<string>, t: string)
    requires 0 < |L| && Header(L[0], PairKey)
    requires PairWalk(L, 1, [], CurAlias) == Some((k, p, CurList(P)))
    requires PairFinish(p, CurList(P)) == (p2, CurText(t))
    ensures ScanFrom(L, 0, Start) == ScanFrom(L, k + 1, ScanState(CurText(t), Cards(p2, [], [], [], [])))
  {
    var st1 := ScanState(CurText(t), Cards(p2, [], [], [], []));
    assert ScanFrom(L, 0, Start) == AfterPairs(L, k, L[k], st1);
    AfterPairsBlank(L, k, L[k], st1);
  }

  /** The particle-pair section of a written file: one card per pair, each
      the pair's filled template, the newline of all but the last kept. */
  lemma {:induction false} ScanPairs(L: seq<string>, ps: seq<Record>)
    requires PairsOk(ps) && ps != []
    requires At(L, 0, [PairHeader + "\n"] + PairsPhys(ps))
    requires 1 + |PairsPhys(ps)| < |L| && IsBlank(L[1 + |PairsPhys(ps)|])
    ensures ScanFrom(L, 0, Start)
      == ScanFrom(L, 1 + |PairsPhys(ps)| + 1, ScanState(CurText(PairFilled(ps[|ps| - 1])), Cards(PairCards(ps), [], [], [], [])))
  {
    AtSplit(L, 0, [PairHeader + "\n"], PairsPhys(ps));
    AtIndex(L, 0, [PairHeader + "\n"], 0);
    PairHeaderLine();
    PairsWalked(L, ps);
    PairsFinished(ps);
    PairsIfWalk(L, 1 + |PairsPhys(ps)|, Joins(ps[..|ps| - 1]), PairPhys(ps[|ps| - 1]), PairCards(ps), PairFilled(ps[|ps| - 1]));
  }

  // ---- the lines of each section are cards ------------------------------------------------

  lemma {:induction false} CardRunAppend(a: seq<string>, b: seq<string>)
    requires CardRun(a) && CardRun(b)
    ensures CardRun(a + b)
  {
    forall k | 0 <= k < |a + b| ensures '\n' !in (a + b)[k] && !IsBlank((a + b)[k]) {
      if k >= |a| {
        assert (a + b)[k] == b[k - |a|];
      }
    }
  }

  /** A line whose first character is not a space is not blank. */
  lemma {:induction false} StartNotBlank(line: string, c: char)
    requires line != [] && line[0] == c && !IsSpace(c)
    ensures !IsBlank(line)
  {
  }

  /** A written radii card has no newline and is not blank. */
  lemma {:induction false} RadiiLineCard(r: Radius)
    requires GoodRadius(r)
    ensures '\n' !in RadiiLine(r) && !IsBlank(RadiiLine(r))
  {
    assert forall i :: 0 <= i < |r.radii[0]| ==> r.radii[0][i] != '\n';
    assert forall i :: 0 <= i < |r.radii[1]| ==> r.radii[1][i] != '\n';
    NoLetterInDigits(r.flags[0], '\n');
    NoLetterInDigits(r.flags[1], '\n');
    JoinTwo(", ", r.radii);
    JoinTwo(", ", r.flags);
    var t := RadiiText(r);
    assert t == "Radii= " + (r.radii[0] + ", " + r.radii[1]) + "    Flags= " + (r.flags[0] + ", " + r.flags[1]);
    LJustPads(t, 80);
    assert RadiiLine(r)[0] == t[0] == 'R';
    StartNotBlank(RadiiLine(r), 'R');
  }

  /** A written group card has no newline and is not blank. */
  lemma {:induction false} GroupLineCard(g: ChannelGroup)
    requires GoodGroup(g)
    ensures '\n' !in GroupLine(g) && !IsBlank(GroupLine(g))
  {
    var xs := IntsText(g.channels);
    IntsTextDigits(g.channels);
    forall k | 0 <= k < |xs| ensures '\n' !in xs[k] {
      NoLetterInDigits(xs[k], '\n');
    }
    JoinFree(", ", xs, '\n');
    NoLetterInDigits(NatToString(g.id), '\n');
    var t := GroupText(g);
    LJustPads(t, 80);
    assert GroupLine(g)[4] == t[4] == 'G';
    assert GroupLine(g)[0] == ' ' && !IsSpace(GroupLine(g)[4]);
  }

  /** The lines of good radius records are cards. */
  lemma {:induction false} RadiusLinesRun(rs: seq<Radius>)
    requires forall k :: 0 <= k < |rs| ==> GoodRadius(rs[k])
    ensures CardRun(AllRadiusLines(rs))
    decreases |rs|
  {
    if rs != [] {
      var r := rs[0];
      RadiiLineCard(r);
      var gl := Mapped(r.groups, GroupLine);
      forall k | 0 <= k < |gl| ensures '\n' !in gl[k] && !IsBlank(gl[k]) {
        GroupLineCard(r.groups[k]);
      }
      CardRunAppend([RadiiLine(r)], gl);
      assert forall k :: 0 <= k < |rs| - 1 ==> rs[1..][k] == rs[k + 1];
      RadiusLinesRun(rs[1..]);
      CardRunAppend(RadiusLines(r), AllRadiusLines(rs[1..]));
    }
  }

  // ---- the scan, section by section -----------------------------------------------------

  lemma {:induction false} BlankEnded(x: string)
    requires IsBlank(x)
    ensures IsBlank(x + "\n")
  {
  }

  /** A section laid out as its header, its cards and a closing line. */
  lemma {:induction false} SectionAt(L: seq<string>, i: nat, h: string, xs: seq<string>, e: string)
    requires At(L, i, Ended([h] + xs + [e]))
    ensures i + |xs| + 2 <= |L| && L[i] == h + "\n" && At(L, i + 1, Ended(xs)) && L[i + 1 + |xs|] == e + "\n"
  {
    EndedAppend([h] + xs, [e]);
    EndedAppend([h], xs);
    AtSplit(L, i, Ended([h]) + Ended(xs), Ended([e]));
    AtSplit(L, i, Ended([h]), Ended(xs));
    AtIndex(L, i, Ended([h]), 0);
    AtIndex(L, i + 1 + |xs|, Ended([e]), 0);
  }

  /** The scan that went on after a section, at `j`, named as the
      position past the section's header, cards and closing line. */
  lemma {:induction false} SectionEnd(L: seq<string>, i: nat, j: nat, xs: seq<string>, st: ScanState, st2: ScanState)
    requires j == i + 1 + |xs| + 1 && ScanFrom(L, i, st) == ScanFrom(L, i + 1 + |xs| + 1, st2)
    ensures ScanFrom(L, i, st) == ScanFrom(L, j, st2)
  {
  }

  /** The spin-group section: its cards are collected and the scan goes on
      after the blank line that closes it. */
  lemma {:induction false} ScanSpin(L: seq<string>, i: nat, j: nat, st: ScanState, xs: seq<string>)
    requires j == i + 1 + |xs| + 1
    requires CardRun(xs) && At(L, i, Ended([SpinHeader] + xs + [" "]))
    ensures ScanFrom(L, i, st) == ScanFrom(L, j, st.(cards := st.cards.(spin := st.cards.spin + xs)))
  {
    SectionAt(L, i, SpinHeader, xs, " ");
    SpinHeaderLine();
    BlankEnded(" ");
    ScanSpinAt(L, i, st, xs);
    var st2 := st.(cards := st.cards.(spin := st.cards.spin + xs));
    SectionEnd(L, i, j, xs, st, st2);
  }

  lemma {:induction false} ScanResonances(L: seq<string>, i: nat, j: nat, st: ScanState, xs: seq<string>)
    requires j == i + 1 + |xs| + 1
    requires CardRun(xs) && At(L, i, Ended([ResonanceHeader] + xs + [Blank80]))
    ensures ScanFrom(L, i, st) == ScanFrom(L, j, st.(cards := st.cards.(resonances := st.cards.resonances + xs)))
  {
    SectionAt(L, i, ResonanceHeader, xs, Blank80);
    ResonanceHeaderLine();
    BlankEnded(Blank80);
    ScanResonancesAt(L, i, st, xs);
    var st2 := st.(cards := st.cards.(resonances := st.cards.resonances + xs));
    SectionEnd(L, i, j, xs, st, st2);
  }

  lemma {:induction false} ScanRadii(L: seq<string>, i: nat, j: nat, st: ScanState, xs: seq<string>)
    requires j == i + 1 + |xs| + 1
    requires CardRun(xs) && xs != [] && At(L, i, Ended([RadiiHeader] + xs + [Blank80]))
    ensures ScanFrom(L, i, st) == ScanFrom(L, j, st.(cards := st.cards.(radii := st.cards.radii + AsCards(xs))))
  {
    SectionAt(L, i, RadiiHeader, xs, Blank80);
    RadiiHeaderLine();
    BlankEnded(Blank80);
    ScanRadiiAt(L, i, st, xs);
    var st2 := st.(cards := st.cards.(radii := st.cards.radii + AsCards(xs)));
    SectionEnd(L, i, j, xs, st, st2);
  }

  lemma {:induction false} ScanIsotopes(L: seq<string>, i: nat, j: nat, st: ScanState, xs: seq<string>)
    requires j == i + 1 + |xs| + 1
    requires CardRun(xs) && At(L, i, Ended([IsotopeHeader] + xs + [Blank80]))
    ensures ScanFrom(L, i, st) == ScanFrom(L, j, st.(cards := st.cards.(isotopes := st.cards.isotopes + xs)))
  {
    SectionAt(L, i, IsotopeHeader, xs, Blank80);
    IsotopeHeaderLine();
    BlankEnded(Blank80);
    ScanIsotopesAt(L, i, st, xs);
    var st2 := st.(cards := st.cards.(isotopes := st.cards.isotopes + xs));
    SectionEnd(L, i, j, xs, st, st2);
  }

  /** The isotope section with no line after its cards: `next` runs off the
      end of the file and the scan raises. */
  lemma {:induction false} ScanIsotopesOff(L: seq<string>, i: nat, st: ScanState, xs: seq<string>)
    requires CardRun(xs) && At(L, i, Ended([IsotopeHeader] + xs)) && i + 1 + |xs| == |L|
    ensures ScanFrom(L, i, st) == None
  {
    EndedAppend([IsotopeHeader], xs);
    AtSplit(L, i, Ended([IsotopeHeader]), Ended(xs));
    AtIndex(L, i, Ended([IsotopeHeader]), 0);
    IsotopeHeaderLine();
    ScanIsotopesOffAt(L, i, st, xs);
  }
}
