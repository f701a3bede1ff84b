/** A whole parameter file written by `ParFile.write` and read back by
    `ParFile.read`: the layout of the written lines, the cards the scanner
    collects from them, the data the parsers rebuild, and the text that data
    writes again. */
module ParFileBack {
  import opened Text
  import opened ParFormat
  import opened ChannelRadii
  import opened ParScan
  import opened ParData
  import opened ParRoundTrip
  import opened ParScanBack
  import opened ParSpinBack
  import ParFileModel

  // ---- the registries fit their lines ----------------------------------------------

  lemma {:induction false} RegistryWidths()
    ensures WithinWidth(ParticlePairFormat, 199) && |PairTemplate| == 199
    ensures WithinWidth(ResonanceFormat, 80) && WithinWidth(IsotopicMassFormat, 80)
    ensures DistinctNames(ParticlePairFormat) && DistinctNames(ResonanceFormat) && DistinctNames(IsotopicMassFormat)
  {
    TemplateShape();
    RegistryNamesDistinct();
  }

  // ---- a written pair read back ----------------------------------------------------

  /** The pair `read` gets back from the card of a written pair: the decoded
      filled template (the newline a card may keep lies past every field). */
  function PairReadBack(rec: Record): (r: Record)
    requires HasFields(ParticlePairFormat, rec)
    ensures HasFields(ParticlePairFormat, r)
  {
    Decode(ParticlePairFormat, PairFilled(rec))
  }

  function PairsReadBack(ps: seq<Record>): (r: seq<Record>)
    requires AllHave(ParticlePairFormat, ps)
    ensures |r| == |ps| && AllHave(ParticlePairFormat, r)
  {
    seq(|ps|, k requires 0 <= k < |ps| => PairReadBack(ps[k]))
  }

  /** The pair cards of a written file decode to the pairs read back. */
  lemma {:induction false} PairCardsRead(ps: seq<Record>)
    requires PairsOk(ps) && ps != []
    ensures DecodeAll(ParticlePairFormat, PairCards(ps)) == PairsReadBack(ps)
  {
    RegistryWidths();
    forall k | 0 <= k < |ps| ensures DecodeAll(ParticlePairFormat, PairCards(ps))[k] == PairReadBack(ps[k]) {
      PairPhysShape(ps[k]);
      if k < |ps| - 1 {
        assert PairCards(ps)[k] == PairFilled(ps[k]) + "\n";
        DecodeExtend(ParticlePairFormat, PairFilled(ps[k]), "\n");
      }
    }
  }

  /** A pair read back writes the same text. */
  lemma {:induction false} PairWritesBack(rec: Record)
    requires PairOk(rec)
    ensures PairText(PairReadBack(rec)) == PairText(rec)
  {
    RegistryWidths();
    EncodeIdempotent(PairTemplate, ParticlePairFormat, rec);
  }

  lemma {:induction false} PairsWriteBack(ps: seq<Record>)
    requires PairsOk(ps)
    ensures PairLines(PairsReadBack(ps)) == PairLines(ps)
  {
    forall k | 0 <= k < |ps| ensures PairLines(PairsReadBack(ps))[k] == PairLines(ps)[k] {
      PairWritesBack(ps[k]);
    }
  }

  // ---- the layout of the written lines ----------------------------------------------

  /** The spin-group, resonance and radii sections, each closed by a blank
      line, with the extra blank line `write` puts before the radii. */
  function Middle(sl: seq<string>, rc: seq<string>, rl: seq<string>): seq<string> {
    ([SpinHeader] + sl + [" "]) + (([ResonanceHeader] + rc + [Blank80]) + ([Blank80] + ([RadiiHeader] + rl + [Blank80])))
  }

  /** The isotopic section: nothing when there are no isotopes; otherwise an
      empty line, the header and the cards, closed by a blank card when
      `closed`. */
  function Tail(ic: seq<string>, closed: bool): seq<string> {
    if ic == [] then [] else ["", IsotopeHeader] + ic + (if closed then [Blank80] else [])
  }

  /** The lines of a file, before the final empty one that ends its text
      with a newline. */
  function Layout(ps: seq<Record>, sl: seq<string>, rc: seq<string>, rl: seq<string>, ic: seq<string>, closed: bool): seq<string>
    requires AllHave(ParticlePairFormat, ps)
  {
    [PairHeader] + PairLines(ps) + ([" "] + (Middle(sl, rc, rl) + Tail(ic, closed)))
  }

  /** Data every section of which `write` emits and `read` keeps whole. */
  predicate Storable(d: Data) {
    && d.pairs.Some? && d.spin.Some? && d.radii.Some? && d.resonances.Some? && d.isotopes.Some?
    && d.pairs.value != [] && PairsOk(d.pairs.value)
    && GroupsOk(d.spin.value) && Writable(d.radii.value)
    && CardsOk(ResonanceFormat, d.resonances.value) && CardsOk(IsotopicMassFormat, d.isotopes.value)
  }

  lemma {:induction false} CardsHave(reg: Registry, recs: seq<Record>)
    requires CardsOk(reg, recs)
    ensures AllHave(reg, recs)
  {
    forall k | 0 <= k < |recs| ensures HasFields(reg, recs[k]) {
      assert CardOk(reg, recs[k]);
    }
  }

  lemma {:induction false} StorableHas(d: Data)
    requires Storable(d)
    ensures AllHave(ParticlePairFormat, d.pairs.value) && SpinLines(d.spin.value).Some?
    ensures AllHave(ResonanceFormat, d.resonances.value) && AllHave(IsotopicMassFormat, d.isotopes.value)
  {
    SpinLinesOk(d.spin.value);
    CardsHave(ResonanceFormat, d.resonances.value);
    CardsHave(IsotopicMassFormat, d.isotopes.value);
  }

  /** The layout of the lines of storable data. */
  function StoredLayout(d: Data, closed: bool): seq<string>
    requires Storable(d)
  {
    StorableHas(d);
    Layout(d.pairs.value, SpinLines(d.spin.value).value, CardLines(ResonanceFormat, d.resonances.value),
      AllRadiusLines(d.radii.value), CardLines(IsotopicMassFormat, d.isotopes.value), closed)
  }

  /** The lines `write` assembles up to the radii section, regrouped
      section by section. */
  lemma {:induction false} Regroup<T>(ph: T, sh: T, rh: T, rd: T, sp: T, bl: T, pl: seq<T>, sl: seq<T>, rc: seq<T>, rl: seq<T>)
    ensures [ph] + pl + [sp, sh] + sl + [sp, rh] + rc + [bl, bl, rd] + rl + [bl]
      == [ph] + pl + ([sp] + (([sh] + sl + [sp]) + (([rh] + rc + [bl]) + ([bl] + ([rd] + rl + [bl])))))
  {
    var S4 := [rd] + rl + [bl];
    var S3 := [bl] + S4;
    var S2 := [rh] + rc + [bl] + S3;
    var S1 := [sh] + sl + [sp] + S2;
    var H := [ph] + pl;
    calc {
      H + [sp, sh] + sl + [sp, rh] + rc + [bl, bl, rd] + rl + [bl];
      { Assoc(H + [sp, sh] + sl + [sp, rh] + rc + [bl, bl, rd], rl, [bl]); }
      H + [sp, sh] + sl + [sp, rh] + rc + [bl, bl, rd] + (rl + [bl]);
      { assert [bl, bl, rd] == [bl, bl] + [rd];
        Assoc(H + [sp, sh] + sl + [sp, rh] + rc + [bl, bl], [rd], rl + [bl]);
        Assoc([rd], rl, [bl]); }
      H + [sp, sh] + sl + [sp, rh] + rc + [bl, bl] + S4;
      { assert [bl, bl] == [bl] + [bl];
        Assoc(H + [sp, sh] + sl + [sp, rh] + rc + [bl], [bl], S4); }
      H + [sp, sh] + sl + [sp, rh] + rc + [bl] + S3;
      { assert [sp, rh] == [sp] + [rh];
        Assoc(H + [sp, sh] + sl + [sp], [rh], rc);
        Assoc(H + [sp, sh] + sl + [sp], [rh] + rc, [bl]);
        Assoc(H + [sp, sh] + sl + [sp], [rh] + rc + [bl], S3); }
      H + [sp, sh] + sl + [sp] + S2;
      { assert [sp, sh] == [sp] + [sh];
        Assoc(H + [sp], [sh], sl);
        Assoc(H + [sp], [sh] + sl, [sp]);
        Assoc(H + [sp], [sh] + sl + [sp], S2); }
      H + [sp] + S1;
      { Assoc(H, [sp], S1); }
      H + ([sp] + S1);
    }
  }

  /** The isotopic block after the lines regrouped above. */
  lemma {:induction false} RegroupTail<T>(X: seq<T>, H: seq<T>, sp: T, M: seq<T>, bl: T, e: T, ih: T, ic: seq<T>, C: seq<T>)
    requires X + [bl] == H + ([sp] + M)
    ensures X + [bl, e] + [ih] + ic + C + [e] == H + ([sp] + (M + ([e, ih] + ic + C))) + [e]
  {
    var Z := [e, ih] + ic + C;
    calc {
      X + [bl, e] + [ih] + ic + C + [e];
      { assert [bl, e] == [bl] + [e]; Assoc(X, [bl], [e]); }
      X + [bl] + [e] + [ih] + ic + C + [e];
      { Assoc(X + [bl], [e], [ih]); assert [e] + [ih] == [e, ih];
        Assoc(X + [bl], [e, ih], ic); Assoc(X + [bl], [e, ih] + ic, C); }
      H + ([sp] + M) + Z + [e];
      { Assoc(H, [sp] + M, Z); Assoc([sp], M, Z); }
      H + ([sp] + (M + Z)) + [e];
    }
  }

  /** The lines `write` assembles, regrouped section by section. */
  lemma {:induction false} LayoutRegrouped(pl: seq<string>, sl: seq<string>, rc: seq<string>, rl: seq<string>, ic: seq<string>, closed: bool)
    ensures var head := [PairHeader] + pl + [" ", SpinHeader] + sl + [" ", ResonanceHeader] + rc
        + [Blank80, Blank80, RadiiHeader] + rl + [Blank80, ""];
      (if ic == [] then head else head + [IsotopeHeader] + ic + (if closed then [Blank80, ""] else [""]))
        == [PairHeader] + pl + ([" "] + (Middle(sl, rc, rl) + Tail(ic, closed))) + [""]
  {
    var X := [PairHeader] + pl + [" ", SpinHeader] + sl + [" ", ResonanceHeader] + rc + [Blank80, Blank80, RadiiHeader] + rl;
    var H := [PairHeader] + pl;
    var M := Middle(sl, rc, rl);
    Regroup(PairHeader, SpinHeader, ResonanceHeader, RadiiHeader, " ", Blank80, pl, sl, rc, rl);
    assert X + [Blank80] == H + ([" "] + M);
    if ic == [] {
      assert M + Tail(ic, closed) == M;
      assert [Blank80, ""] == [Blank80] + [""];
      Assoc(X, [Blank80], [""]);
    } else {
      var C := if closed then [Blank80] else [];
      RegroupTail(X, H, " ", M, Blank80, "", IsotopeHeader, ic, C);
      assert (if closed then [Blank80, ""] else [""]) == C + [""];
      Assoc(X + [Blank80, ""] + [IsotopeHeader] + ic, C, [""]);
    }
  }

  /** The lines `write` assembles for data whose sections it can all
      emit, with the isotopic block as the source has it and closed. */
  lemma {:induction false} HeadShape(d: Data)
    requires d.pairs.Some? && d.spin.Some? && d.radii.Some? && d.resonances.Some? && d.isotopes.Some?
    requires AllHave(ParticlePairFormat, d.pairs.value) && AllHave(ResonanceFormat, d.resonances.value)
    requires AllHave(IsotopicMassFormat, d.isotopes.value) && SpinLines(d.spin.value).Some?
    ensures var ic := CardLines(IsotopicMassFormat, d.isotopes.value);
      var head := [PairHeader] + PairLines(d.pairs.value) + [" ", SpinHeader] + SpinLines(d.spin.value).value + [" ", ResonanceHeader]
        + CardLines(ResonanceFormat, d.resonances.value) + [Blank80, Blank80, RadiiHeader] + AllRadiusLines(d.radii.value) + [Blank80, ""];
      && WrittenLines(d) == Some(if ic == [] then head else head + [IsotopeHeader] + ic + [""])
      && FileLinesOf(d) == Some(if ic == [] then head else head + [IsotopeHeader] + ic + [Blank80, ""])
  {
  }

  /** The lines of a storable file as `write` assembles them, the isotopic
      block closed by a blank card. */
  lemma {:induction false} FileLinesLayout(d: Data)
    requires Storable(d)
    ensures FileLinesOf(d) == Some(StoredLayout(d, true) + [""])
  {
    StorableHas(d);
    HeadShape(d);
    LayoutRegrouped(PairLines(d.pairs.value), SpinLines(d.spin.value).value, CardLines(ResonanceFormat, d.resonances.value),
      AllRadiusLines(d.radii.value), CardLines(IsotopicMassFormat, d.isotopes.value), true);
  }

  /** The lines of a storable file as the source writes them. */
  lemma {:induction false} WrittenLinesLayout(d: Data)
    requires Storable(d)
    ensures WrittenLines(d) == Some(StoredLayout(d, false) + [""])
  {
    StorableHas(d);
    HeadShape(d);
    LayoutRegrouped(PairLines(d.pairs.value), SpinLines(d.spin.value).value, CardLines(ResonanceFormat, d.resonances.value),
      AllRadiusLines(d.radii.value), CardLines(IsotopicMassFormat, d.isotopes.value), false);
  }

  // ---- the physical lines of the written text ----------------------------------------

  lemma {:induction false} FreeAppend(a: seq<string>, b: seq<string>)
    requires NewlineFree(a) && NewlineFree(b)
    ensures NewlineFree(a + b)
  {
    forall k | 0 <= k < |a + b| ensures '\n' !in (a + b)[k] {
      if k >= |a| {
        assert (a + b)[k] == b[k - |a|];
      }
    }
  }

  /** Padding adds no newline. */
  lemma {:induction false} LJustFree(t: string, w: int)
    requires '\n' !in t
    ensures '\n' !in LJust(t, w)
  {
    var r := LJust(t, w);
    forall i | 0 <= i < |r| ensures r[i] != '\n' {
      if i < |t| {
        assert r[i] == r[..|t|][i];
      }
    }
  }

  lemma {:induction false} PairHeaderFree() ensures '\n' !in PairHeader {}
  lemma {:induction false} SpinHeaderFree() ensures '\n' !in SpinHeader {}
  lemma {:induction false} ResonanceHeaderFree() ensures '\n' !in ResonanceHeader {}

  lemma {:induction false} RadiiHeaderFree()
    ensures '\n' !in RadiiHeader
  {
    LJustFree("Channel radii in key-word format", 80);
  }

  lemma {:induction false} IsotopeHeaderFree()
    ensures '\n' !in IsotopeHeader
  {
    LJustFree("ISOTOPIC MASSES AND ABUNDANCES FOLLOW", 80);
  }

  /** Headers and blank lines hold no newline. */
  lemma {:induction false} HeadersFree()
    ensures NewlineFree([PairHeader]) && NewlineFree([SpinHeader]) && NewlineFree([ResonanceHeader])
    ensures NewlineFree([RadiiHeader]) && NewlineFree([IsotopeHeader])
    ensures NewlineFree([" "]) && NewlineFree([Blank80]) && NewlineFree([""])
  {
    PairHeaderFree();
    SpinHeaderFree();
    ResonanceHeaderFree();
    RadiiHeaderFree();
    IsotopeHeaderFree();
    assert forall i :: 0 <= i < |Blank80| ==> Blank80[i] == ' ';
  }

  /** A section: a header, its cards and the line that closes it. */
  lemma {:induction false} SectionFree(h: seq<string>, xs: seq<string>, e: seq<string>)
    requires NewlineFree(h) && CardRun(xs) && NewlineFree(e)
    ensures NewlineFree(h + xs + e)
  {
    FreeAppend(h, xs);
    FreeAppend(h + xs, e);
  }

  lemma {:induction false} MiddleFree(sl: seq<string>, rc: seq<string>, rl: seq<string>)
    requires CardRun(sl) && CardRun(rc) && CardRun(rl)
    ensures NewlineFree(Middle(sl, rc, rl))
  {
    HeadersFree();
    var S1, S2, S4 := [SpinHeader] + sl + [" "], [ResonanceHeader] + rc + [Blank80], [RadiiHeader] + rl + [Blank80];
    SectionFree([SpinHeader], sl, [" "]);
    SectionFree([ResonanceHeader], rc, [Blank80]);
    SectionFree([RadiiHeader], rl, [Blank80]);
    FreeAppend([Blank80], S4);
    FreeAppend(S2, [Blank80] + S4);
    FreeAppend(S1, S2 + ([Blank80] + S4));
  }

  lemma {:induction false} TailFree(ic: seq<string>, closed: bool)
    requires CardRun(ic)
    ensures NewlineFree(Tail(ic, closed))
  {
    if ic != [] {
      HeadersFree();
      FreeAppend([""], [IsotopeHeader]);
      assert [""] + [IsotopeHeader] == ["", IsotopeHeader];
      SectionFree(["", IsotopeHeader], ic, if closed then [Blank80] else []);
    }
  }

  /** The file lines of lines joined with a final empty one: those of the
      middle run `P` between a newline-free first line and newline-free rest. */
  lemma {:induction false} PhysicalSplit(h: string, P: seq<string>, Z: seq<string>)
    requires '\n' !in h && NewlineFree(Z)
    ensures FileLines(Join("\n", [h] + P + Z + [""])) == [h + "\n"] + FileLines(Concat(Ended(P))) + Ended(Z)
  {
    var X := [h] + P + Z;
    JoinEnded(X);
    Assoc([h], P, Z);
    FileLinesEndedAppend([h], P + Z);
    FileLinesEndedAppend(P, Z);
    FileLinesEnded([h]);
    FileLinesEnded(Z);
    assert Ended([h]) == [h + "\n"];
  }

  /** The file lines of the written text: the pair header, the three lines
      of each pair, then every other line with its newline. */
  lemma {:induction false} PhysicalLines(ps: seq<Record>, Z: seq<string>)
    requires PairsOk(ps) && NewlineFree(Z)
    ensures FileLines(FileText([PairHeader] + PairLines(ps) + Z + [""])) == [PairHeader + "\n"] + PairsPhys(ps) + Ended(Z)
  {
    PairHeaderFree();
    PhysicalSplit(PairHeader, PairLines(ps), Z);
    FileLinesPairs(ps);
  }

  // ---- the scan of the written lines ------------------------------------------------

  /** Where the spin-group and resonance sections and what follows them sit. */
  lemma {:induction false} SpinResonancesPlaces(L: seq<string>, i: nat, i1: nat, i2: nat, sl: seq<string>, rc: seq<string>, rest: seq<string>)
    requires i1 == i + 1 + |sl| + 1 && i2 == i1 + 1 + |rc| + 1
    requires At(L, i, Ended(([SpinHeader] + sl + [" "]) + (([ResonanceHeader] + rc + [Blank80]) + rest)))
    ensures At(L, i, Ended([SpinHeader] + sl + [" "]))
    ensures At(L, i1, Ended([ResonanceHeader] + rc + [Blank80]))
    ensures At(L, i2, Ended(rest))
  {
    var S1, S2 := [SpinHeader] + sl + [" "], [ResonanceHeader] + rc + [Blank80];
    EndedAppend(S1, S2 + rest);
    AtSplitAt(L, i, i1, Ended(S1), Ended(S2 + rest));
    EndedAppend(S2, rest);
    AtSplitAt(L, i1, i2, Ended(S2), Ended(rest));
  }

  /** The spin-group and resonance sections: their cards are collected. */
  lemma {:induction false} ScanSpinResonances(L: seq<string>, i: nat, i2: nat, st: ScanState, sl: seq<string>, rc: seq<string>, rest: seq<string>)
    requires i2 == i + |sl| + 2 + |rc| + 2
    requires CardRun(sl) && CardRun(rc)
    requires At(L, i, Ended(([SpinHeader] + sl + [" "]) + (([ResonanceHeader] + rc + [Blank80]) + rest)))
    ensures At(L, i2, Ended(rest))
    ensures ScanFrom(L, i, st) == ScanFrom(L, i2,
      st.(cards := st.cards.(spin := st.cards.spin + sl, resonances := st.cards.resonances + rc)))
  {
    var i1: nat := i + 1 + |sl| + 1;
    SpinResonancesPlaces(L, i, i1, i2, sl, rc, rest);
    var st1 := st.(cards := st.cards.(spin := st.cards.spin + sl));
    var st2 := st1.(cards := st1.cards.(resonances := st1.cards.resonances + rc));
    ScanSpin(L, i, i1, st, sl);
    ScanResonances(L, i1, i2, st1, rc);
    ScanChain(L, i, st, i1, st1, i2, st2);
    assert st2 == st.(cards := st.cards.(spin := st.cards.spin + sl, resonances := st.cards.resonances + rc));
  }

  /** Two stretches of the scan, one after the other. */
  lemma {:induction false} ScanChain(L: seq<string>, i: nat, st: ScanState, j: nat, st1: ScanState, k: nat, st2: ScanState)
    requires ScanFrom(L, i, st) == ScanFrom(L, j, st1) && ScanFrom(L, j, st1) == ScanFrom(L, k, st2)
    ensures ScanFrom(L, i, st) == ScanFrom(L, k, st2)
  {
  }

  /** A blank line at `i` is passed over; the scan goes on at `j = i + 1`. */
  lemma {:induction false} ScanBlankAt(L: seq<string>, i: nat, j: nat, st: ScanState, b: string, rest: seq<string>)
    requires j == i + 1 && IsBlank(b) && At(L, i, Ended([b] + rest))
    ensures At(L, j, Ended(rest)) && ScanFrom(L, i, st) == ScanFrom(L, j, st)
  {
    BlankPlaces(L, i, j, b, rest);
    ScanBlankTo(L, i, j, st);
  }

  lemma {:induction false} Blank80Blank()
    ensures IsBlank(Blank80)
  {
    assert forall i :: 0 <= i < |Blank80| ==> Blank80[i] == ' ';
  }

  /** Where a blank line and what follows it sit. */
  lemma {:induction false} BlankPlaces(L: seq<string>, i: nat, j: nat, b: string, rest: seq<string>)
    requires j == i + 1 && IsBlank(b) && At(L, i, Ended([b] + rest))
    ensures i < |L| && IsBlank(L[i]) && At(L, j, Ended(rest))
  {
    EndedAppend([b], rest);
    AtSplitAt(L, i, j, Ended([b]), Ended(rest));
    AtIndex(L, i, Ended([b]), 0);
    BlankEnded(b);
  }

  /** The blank card before the radii, and the radii section. */
  lemma {:induction false} ScanBlankRadii(L: seq<string>, i: nat, j: nat, st: ScanState, rl: seq<string>)
    requires j == i + 1 + |rl| + 2
    requires CardRun(rl) && rl != []
    requires At(L, i, Ended([Blank80] + ([RadiiHeader] + rl + [Blank80])))
    ensures ScanFrom(L, i, st) == ScanFrom(L, j, st.(cards := st.cards.(radii := st.cards.radii + AsCards(rl))))
  {
    Blank80Blank();
    var i1: nat := i + 1;
    ScanBlankAt(L, i, i1, st, Blank80, [RadiiHeader] + rl + [Blank80]);
    ScanRadii(L, i1, j, st, rl);
  }

  /** The spin-group, resonance and radii sections: their cards are collected. */
  lemma {:induction false} ScanMiddle(L: seq<string>, i: nat, j: nat, st: ScanState, sl: seq<string>, rc: seq<string>, rl: seq<string>)
    requires j == i + |Middle(sl, rc, rl)|
    requires CardRun(sl) && CardRun(rc) && CardRun(rl) && rl != []
    requires At(L, i, Ended(Middle(sl, rc, rl)))
    ensures ScanFrom(L, i, st) == ScanFrom(L, j,
      st.(cards := st.cards.(spin := st.cards.spin + sl, resonances := st.cards.resonances + rc, radii := st.cards.radii + AsCards(rl))))
  {
    var rest := [Blank80] + ([RadiiHeader] + rl + [Blank80]);
    var i2: nat := i + |sl| + 2 + |rc| + 2;
    ScanSpinResonances(L, i, i2, st, sl, rc, rest);
    var st2 := st.(cards := st.cards.(spin := st.cards.spin + sl, resonances := st.cards.resonances + rc));
    var st3 := st2.(cards := st2.cards.(radii := st2.cards.radii + AsCards(rl)));
    ScanBlankRadii(L, i2, j, st2, rl);
    ScanChain(L, i, st, i2, st2, j, st3);
  }

  /** The isotopic block closed by a blank card: its cards are collected and
      the scan ends with the file. */
  lemma {:induction false} ScanTailClosed(L: seq<string>, i: nat, st: ScanState, ic: seq<string>)
    requires CardRun(ic) && At(L, i, Ended(Tail(ic, true))) && i + |Tail(ic, true)| == |L|
    ensures ScanFrom(L, i, st) == Some(st.(cards := st.cards.(isotopes := st.cards.isotopes + ic)))
  {
    if ic == [] {
      assert st.(cards := st.cards.(isotopes := st.cards.isotopes + ic)) == st;
    } else {
      var S := [IsotopeHeader] + ic + [Blank80];
      assert Tail(ic, true) == [""] + S;
      var i1: nat := i + 1;
      var n: nat := |L|;
      ScanBlankAt(L, i, i1, st, "", S);
      var st2 := st.(cards := st.cards.(isotopes := st.cards.isotopes + ic));
      ScanIsotopes(L, i1, n, st, ic);
      ScanChain(L, i, st, i1, st, n, st2);
    }
  }

  /** The isotopic block as the source writes it, with no line after its
      last card: the scan raises. */
  lemma {:induction false} ScanTailOpen(L: seq<string>, i: nat, st: ScanState, ic: seq<string>)
    requires ic != [] && CardRun(ic) && At(L, i, Ended(Tail(ic, false))) && i + |Tail(ic, false)| == |L|
    ensures ScanFrom(L, i, st) == None
  {
    var S := [IsotopeHeader] + ic;
    assert Tail(ic, false) == [""] + S;
    var i1: nat := i + 1;
    ScanBlankAt(L, i, i1, st, "", S);
    ScanIsotopesOff(L, i1, st, ic);
  }

  /** The cards of the sections before the isotopic block. */
  function HeadCards(ps: seq<Record>, sl: seq<string>, rc: seq<string>, rl: seq<string>): Cards
    requires AllHave(ParticlePairFormat, ps) && ps != []
  {
    Cards(PairCards(ps), sl, rc, AsCards(rl), [])
  }

  /** The file lines of a written text: the pair header, the three lines of
      each pair, the blank line after them, then the other sections. */
  function Physical(ps: seq<Record>, M: seq<string>, T: seq<string>): seq<string>
    requires AllHave(ParticlePairFormat, ps)
  {
    [PairHeader + "\n"] + PairsPhys(ps) + (Ended([" "]) + (Ended(M) + Ended(T)))
  }

  /** The file lines of the written text, section by section. */
  lemma {:induction false} LaidOut(ps: seq<Record>, sl: seq<string>, rc: seq<string>, rl: seq<string>, ic: seq<string>, closed: bool)
    requires PairsOk(ps) && CardRun(sl) && CardRun(rc) && CardRun(rl) && CardRun(ic)
    ensures FileLines(FileText(Layout(ps, sl, rc, rl, ic, closed) + [""])) == Physical(ps, Middle(sl, rc, rl), Tail(ic, closed))
  {
    var M, T := Middle(sl, rc, rl), Tail(ic, closed);
    HeadersFree();
    MiddleFree(sl, rc, rl);
    TailFree(ic, closed);
    FreeAppend(M, T);
    FreeAppend([" "], M + T);
    PhysicalLines(ps, [" "] + (M + T));
    EndedAppend([" "], M + T);
    EndedAppend(M, T);
  }

  /** From the line after the pairs' closing blank line to the isotopic block. */
  lemma {:induction false} ScanAfterPairs(L: seq<string>, i: nat, j: nat, st: ScanState, sl: seq<string>, rc: seq<string>, rl: seq<string>, T: seq<string>)
    requires j == i + |Middle(sl, rc, rl)|
    requires CardRun(sl) && CardRun(rc) && CardRun(rl) && rl != []
    requires At(L, i, Ended(Middle(sl, rc, rl)) + Ended(T))
    ensures At(L, j, Ended(T))
    ensures ScanFrom(L, i, st) == ScanFrom(L, j,
      st.(cards := st.cards.(spin := st.cards.spin + sl, resonances := st.cards.resonances + rc, radii := st.cards.radii + AsCards(rl))))
  {
    var M := Middle(sl, rc, rl);
    AtSplitAt(L, i, j, Ended(M), Ended(T));
    ScanMiddle(L, i, j, st, sl, rc, rl);
  }

  /** The scan after the pair section, which ends at `n1`. */
  lemma {:induction false} PairsEnd(L: seq<string>, ps: seq<Record>, n1: nat, st1: ScanState)
    requires AllHave(ParticlePairFormat, ps)
    requires n1 == 1 + |PairsPhys(ps)| + 1 && ScanFrom(L, 0, Start) == ScanFrom(L, 1 + |PairsPhys(ps)| + 1, st1)
    ensures ScanFrom(L, 0, Start) == ScanFrom(L, n1, st1)
  {
  }

  /** What a physical file holds after the pair section, which ends at `n1`. */
  lemma {:induction false} PhysicalAfterPairs(L: seq<string>, ps: seq<Record>, M: seq<string>, T: seq<string>, n1: nat)
    requires AllHave(ParticlePairFormat, ps)
    requires PhysicalAt(L, ps, M, T) && n1 == 1 + |PairsPhys(ps)| + 1
    ensures At(L, n1, Ended(M) + Ended(T)) && |L| == n1 + |M| + |T|
  {
  }

  /** The written lines up to the isotopic block: the scan collects the
      cards of every section before it and stands at its first line `m`. */
  lemma {:induction false} ScanToTail(L: seq<string>, m: nat, ps: seq<Record>, sl: seq<string>, rc: seq<string>, rl: seq<string>, T: seq<string>)
    requires PairsOk(ps) && ps != [] && CardRun(sl) && CardRun(rc) && CardRun(rl) && rl != []
    requires m == 1 + |PairsPhys(ps)| + 1 + |Middle(sl, rc, rl)|
    requires PhysicalAt(L, ps, Middle(sl, rc, rl), T)
    ensures At(L, m, Ended(T)) && m + |T| == |L|
    ensures ScanFrom(L, 0, Start) == ScanFrom(L, m, ScanState(CurText(PairFilled(ps[|ps| - 1])), HeadCards(ps, sl, rc, rl)))
  {
    var M := Middle(sl, rc, rl);
    var n1: nat := 1 + |PairsPhys(ps)| + 1;
    ScanPairs(L, ps);
    var t := PairFilled(ps[|ps| - 1]);
    var st1 := ScanState(CurText(t), Cards(PairCards(ps), [], [], [], []));
    PairsEnd(L, ps, n1, st1);
    PhysicalAfterPairs(L, ps, M, T, n1);
    ScanAfterPairs(L, n1, m, st1, sl, rc, rl, T);
    var st2 := st1.(cards := st1.cards.(spin := st1.cards.spin + sl, resonances := st1.cards.resonances + rc, radii := st1.cards.radii + AsCards(rl)));
    assert [] + sl == sl && [] + rc == rc && [] + AsCards(rl) == AsCards(rl);
    assert st2 == ScanState(CurText(t), HeadCards(ps, sl, rc, rl));
    ScanChain(L, 0, Start, n1, st1, m, st2);
  }

  /** Where the sections of a physical file sit. */
  predicate PhysicalAt(L: seq<string>, ps: seq<Record>, M: seq<string>, T: seq<string>)
    requires AllHave(ParticlePairFormat, ps)
  {
    var n := 1 + |PairsPhys(ps)|;
    && At(L, 0, [PairHeader + "\n"] + PairsPhys(ps))
    && n < |L| && IsBlank(L[n])
    && At(L, n + 1, Ended(M) + Ended(T))
    && |L| == n + 1 + |M| + |T|
  }

  lemma {:induction false} PhysicalPlaces(ps: seq<Record>, M: seq<string>, T: seq<string>)
    requires AllHave(ParticlePairFormat, ps)
    ensures PhysicalAt(Physical(ps, M, T), ps, M, T)
  {
    var L := Physical(ps, M, T);
    var A := [PairHeader + "\n"] + PairsPhys(ps);
    var E := Ended([" "]) + (Ended(M) + Ended(T));
    var n := |A|;
    assert |E| == 1 + |M| + |T|;
    AtWhole(L);
    AtSplit(L, 0, A, E);
    AtIndex(L, n, E, 0);
    BlankEnded(" ");
    AtSplit(L, n, Ended([" "]), Ended(M) + Ended(T));
  }

  /** The file as written with its isotopic block closed: the scan collects
      the cards of every section. */
  lemma {:induction false} ScanStored(L: seq<string>, ps: seq<Record>, sl: seq<string>, rc: seq<string>, rl: seq<string>, ic: seq<string>)
    requires PairsOk(ps) && ps != [] && CardRun(sl) && CardRun(rc) && CardRun(rl) && rl != [] && CardRun(ic)
    requires PhysicalAt(L, ps, Middle(sl, rc, rl), Tail(ic, true))
    ensures ScanLines(L) == Some(Cards(PairCards(ps), sl, rc, AsCards(rl), ic))
  {
    var m: nat := 1 + |PairsPhys(ps)| + 1 + |Middle(sl, rc, rl)|;
    ScanToTail(L, m, ps, sl, rc, rl, Tail(ic, true));
    var st := ScanState(CurText(PairFilled(ps[|ps| - 1])), HeadCards(ps, sl, rc, rl));
    ScanTailClosed(L, m, st, ic);
    assert [] + ic == ic;
    assert st.(cards := st.cards.(isotopes := st.cards.isotopes + ic)).cards == Cards(PairCards(ps), sl, rc, AsCards(rl), ic);
  }

  /** The file as the source writes it, with isotopes: the scan raises. */
  lemma {:induction false} ScanWrittenFails(L: seq<string>, ps: seq<Record>, sl: seq<string>, rc: seq<string>, rl: seq<string>, ic: seq<string>)
    requires PairsOk(ps) && ps != [] && CardRun(sl) && CardRun(rc) && CardRun(rl) && rl != [] && CardRun(ic) && ic != []
    requires PhysicalAt(L, ps, Middle(sl, rc, rl), Tail(ic, false))
    ensures ScanLines(L) == None
  {
    var m: nat := 1 + |PairsPhys(ps)| + 1 + |Middle(sl, rc, rl)|;
    ScanToTail(L, m, ps, sl, rc, rl, Tail(ic, false));
    ScanTailOpen(L, m, ScanState(CurText(PairFilled(ps[|ps| - 1])), HeadCards(ps, sl, rc, rl)), ic);
  }
}
