/** The whole parameter file through `write` and `read`: storable data
    written with its isotopic block closed reads back, and writing what was
    read gives the same text again; written as the source has it, a
    non-empty isotopic block makes the file unreadable. */
module ParFileTrip {
  import opened Text
  import opened ParFormat
  import opened ChannelRadii
  import opened ParScan
  import opened ParData
  import opened ParRoundTrip
  import opened ParScanBack
  import opened ParSpinBack
  import opened ParFileBack
  import opened ParWeight
  import ParFileModel

  /** The lines of good spin groups are cards: newline-free and not blank. */
  lemma {:induction false} SpinLinesRun(gs: seq<SpinGroup>)
    requires GroupsOk(gs)
    ensures SpinLines(gs).Some? && CardRun(SpinLines(gs).value)
    decreases |gs|
  {
    SpinLinesOk(gs);
    if gs != [] {
      var front, last := gs[..|gs| - 1], gs[|gs| - 1];
      assert GroupsOk(front) by {
        forall k | 0 <= k < |front| ensures GroupOk(front[k]) {
          assert front[k] == gs[k];
        }
      }
      SpinLinesRun(front);
      GroupLinesShape(last);
      assert SpinLines(gs).value == SpinLines(front).value + GroupLines(last).value;
      CardRunAppend(SpinLines(front).value, GroupLines(last).value);
    }
  }

  /** Every section of storable data is written as a run of cards, and the
      radii section is not empty. */
  lemma {:induction false} SectionCards(d: Data)
    requires Storable(d)
    ensures AllHave(ParticlePairFormat, d.pairs.value)
    ensures SpinLines(d.spin.value).Some? && CardRun(SpinLines(d.spin.value).value)
    ensures AllHave(ResonanceFormat, d.resonances.value) && CardRun(CardLines(ResonanceFormat, d.resonances.value))
    ensures AllHave(IsotopicMassFormat, d.isotopes.value) && CardRun(CardLines(IsotopicMassFormat, d.isotopes.value))
    ensures CardRun(AllRadiusLines(d.radii.value)) && AllRadiusLines(d.radii.value) != []
  {
    StorableHas(d);
    SpinLinesRun(d.spin.value);
    RegistryWidths();
    CardLinesShape(ResonanceFormat, d.resonances.value);
    CardLinesShape(IsotopicMassFormat, d.isotopes.value);
    var rs := d.radii.value;
    RadiusLinesRun(rs);
    assert AllRadiusLines(rs) == RadiusLines(rs[0]) + AllRadiusLines(rs[1..]);
  }

  /** The cards the scan of a stored file collects, section by section. */
  function StoredCards(d: Data): Cards
    requires Storable(d)
  {
    StorableHas(d);
    Cards(PairCards(d.pairs.value), SpinLines(d.spin.value).value, CardLines(ResonanceFormat, d.resonances.value),
      AsCards(AllRadiusLines(d.radii.value)), CardLines(IsotopicMassFormat, d.isotopes.value))
  }

  /** The data `read` builds from a stored file: every record is the one
      decoded from its written card, the radii come back unchanged. */
  function ReadBack(d: Data): (r: Data)
    requires Storable(d)
    ensures r.pairs.Some? && r.spin.Some? && r.radii == d.radii && r.resonances.Some? && r.isotopes.Some?
  {
    StorableHas(d);
    Data(Some(PairsReadBack(d.pairs.value)), Some(GroupsReadBack(d.spin.value)), d.radii,
      Some(ReadBackAll(ResonanceFormat, d.resonances.value)), Some(ReadBackAll(IsotopicMassFormat, d.isotopes.value)))
  }

  /** The physical lines of the text of stored data. */
  function StoredText(d: Data, closed: bool): seq<string>
    requires Storable(d)
  {
    FileLines(FileText(StoredLayout(d, closed) + [""]))
  }

  /** The same lines, section by section. */
  function PhysicalOf(d: Data, closed: bool): seq<string>
    requires Storable(d)
  {
    StorableHas(d);
    Physical(d.pairs.value, Middle(SpinLines(d.spin.value).value, CardLines(ResonanceFormat, d.resonances.value),
      AllRadiusLines(d.radii.value)), Tail(CardLines(IsotopicMassFormat, d.isotopes.value), closed))
  }

  lemma {:induction false} StoredPhysical(d: Data, closed: bool)
    requires Storable(d)
    ensures StoredText(d, closed) == PhysicalOf(d, closed)
  {
    SectionCards(d);
    LaidOut(d.pairs.value, SpinLines(d.spin.value).value, CardLines(ResonanceFormat, d.resonances.value),
      AllRadiusLines(d.radii.value), CardLines(IsotopicMassFormat, d.isotopes.value), closed);
  }

  /** The text `write` would produce with the isotopic block closed scans
      into the cards of every section. */
  lemma {:induction false} ScanFileLines(d: Data)
    requires Storable(d)
    ensures FileLinesOf(d).Some?
    ensures ScanLines(FileLines(FileText(FileLinesOf(d).value))) == Some(StoredCards(d))
  {
    FileLinesLayout(d);
    SectionCards(d);
    StoredPhysical(d, true);
    PhysicalPlaces(d.pairs.value, Middle(SpinLines(d.spin.value).value, CardLines(ResonanceFormat, d.resonances.value),
      AllRadiusLines(d.radii.value)), Tail(CardLines(IsotopicMassFormat, d.isotopes.value), true));
    ScanStored(StoredText(d, true), d.pairs.value, SpinLines(d.spin.value).value, CardLines(ResonanceFormat, d.resonances.value),
      AllRadiusLines(d.radii.value), CardLines(IsotopicMassFormat, d.isotopes.value));
  }

  /** Parsing the cards of a stored file gives the data read back, whatever
      the object held before. */
  lemma {:induction false} ParseStored(d0: Data, d: Data)
    requires Storable(d)
    ensures ParseCards(d0, StoredCards(d)) == (ReadBack(d), true)
  {
    StorableHas(d);
    var c := StoredCards(d);
    PairCardsRead(d.pairs.value);
    SpinGroupsOfWritten(d.spin.value);
    ChannelRadiiRoundTrip(d.radii.value);
    CardLinesReadBack(ResonanceFormat, c.resonances, d.resonances.value);
    CardLinesReadBack(IsotopicMassFormat, c.isotopes, d.isotopes.value);
  }

  /** `read` with `name="none"` of the text of stored data succeeds and
      yields the data read back (the round trip of
      `test_read_write_par_file`). */
  lemma {:induction false} ReadStored(d0: Data, stem: string, w: Weight, d: Data)
    requires Storable(d)
    ensures FileLinesOf(d).Some?
    ensures ParFileModel.ReadResult(d0, "none", stem, w, FileLines(FileText(FileLinesOf(d).value))) == (ReadBack(d), "none", true)
  {
    ScanFileLines(d);
    ParseStored(d0, d);
  }

  /** Data read back writes exactly the lines of the data it came from. */
  lemma {:induction false} ReadBackWrites(d: Data)
    requires Storable(d)
    ensures FileLinesOf(ReadBack(d)) == FileLinesOf(d)
    ensures WrittenLines(ReadBack(d)) == WrittenLines(d)
  {
    StorableHas(d);
    var b := ReadBack(d);
    RegistryWidths();
    PairsWriteBack(d.pairs.value);
    GroupsReadBackLines(d.spin.value);
    CardLinesWriteBack(ResonanceFormat, d.resonances.value);
    CardLinesWriteBack(IsotopicMassFormat, d.isotopes.value);
    assert HeadLines(b) == HeadLines(d);
  }

  /** Write, read with `name="none"`, write again: the same text (the
      fixed point of `test_read_write_compound_file`). */
  lemma {:induction false} WriteReadWrite(d0: Data, stem: string, w: Weight, d: Data)
    requires Storable(d)
    ensures FileLinesOf(d).Some?
    ensures var text := FileText(FileLinesOf(d).value);
      var (d1, _, ok) := ParFileModel.ReadResult(d0, "none", stem, w, FileLines(text));
      ok && FileLinesOf(d1).Some? && FileText(FileLinesOf(d1).value) == text
  {
    ReadStored(d0, stem, w, d);
    ReadBackWrites(d);
  }

  /** Without isotopic masses the lines `write` emits are the closed ones. */
  lemma {:induction false} WrittenNoIsotopes(d: Data)
    requires Storable(d) && d.isotopes.value == []
    ensures WrittenLines(d) == FileLinesOf(d)
  {
    StorableHas(d);
  }

  /** As the source writes it, a file with isotopic masses ends right after
      its last card: the scan finds no end to the isotopic block. */
  lemma {:induction false} ScanWrittenLines(d: Data)
    requires Storable(d) && d.isotopes.value != []
    ensures WrittenLines(d).Some?
    ensures ScanLines(FileLines(FileText(WrittenLines(d).value))) == None
  {
    WrittenLinesLayout(d);
    SectionCards(d);
    StoredPhysical(d, false);
    PhysicalPlaces(d.pairs.value, Middle(SpinLines(d.spin.value).value, CardLines(ResonanceFormat, d.resonances.value),
      AllRadiusLines(d.radii.value)), Tail(CardLines(IsotopicMassFormat, d.isotopes.value), false));
    ScanWrittenFails(StoredText(d, false), d.pairs.value, SpinLines(d.spin.value).value, CardLines(ResonanceFormat, d.resonances.value),
      AllRadiusLines(d.radii.value), CardLines(IsotopicMassFormat, d.isotopes.value));
  }

  /** So reading back a file the source wrote with isotopic masses fails
      and leaves the object as it was. */
  lemma {:induction false} ReadWrittenFails(d0: Data, name: string, stem: string, w: Weight, d: Data)
    requires Storable(d) && d.isotopes.value != []
    ensures WrittenLines(d).Some?
    ensures ParFileModel.ReadResult(d0, name, stem, w, FileLines(FileText(WrittenLines(d).value))) == (d0, name, false)
  {
    ScanWrittenLines(d);
  }
}
