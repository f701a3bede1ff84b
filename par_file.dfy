/** `ParFile`: one SAMMY parameter file held as editable data, read from
    the lines of a file, renamed and stamped with its isotope's weight,
    written back, and combined with another isotope's file. */
module ParFileModel {
  import opened Text
  import opened ParFormat
  import opened ChannelRadii
  import opened ParScan
  import opened ParData
  import opened ParEdit
  import opened ParWeight
  import opened ParLoops
  import opened ParKeys

  // ---- the file name ------------------------------------------------------------

  /** `s.rfind(c)`: the index of the last `c`, or -1. */
  function RFind(s: string, c: char): (i: int)
    ensures -1 <= i < |s|
    ensures i >= 0 ==> s[i] == c && forall j :: i < j < |s| ==> s[j] != c
    ensures i == -1 ==> c !in s
    decreases |s|
  {
    if s == [] then -1 else if s[|s| - 1] == c then |s| - 1 else RFind(s[..|s| - 1], c)
  }

  /** `PurePath(p).name`: what follows the last '/'. */
  function BaseName(p: string): string {
    p[RFind(p, '/') + 1..]
  }

  /** `PurePath(p).stem`: the name without its last suffix; a name whose
      only dot comes first or last has no suffix. */
  function Stem(p: string): string {
    var n := BaseName(p);
    var i := RFind(n, '.');
    if 0 < i < |n| - 1 then n[..i] else n
  }

  /** The last `c` of `a + b` is the last of `a` when `b` has none. */
  lemma {:induction false} RFindLast(a: string, b: string, c: char)
    requires a != [] && a[|a| - 1] == c && c !in b
    ensures RFind(a + b, c) == |a| - 1
    decreases |b|
  {
    if b == [] {
      assert a + b == a;
    } else {
      var ab := a + b;
      assert ab[|ab| - 1] == b[|b| - 1];
      assert ab[..|ab| - 1] == a + b[..|b| - 1];
      RFindLast(a, b[..|b| - 1], c);
    }
  }

  /** The name of `dir + n` is `n` when `dir` is empty or ends in '/'. */
  lemma BaseNameOfPath(dir: string, n: string)
    requires dir == [] || dir[|dir| - 1] == '/'
    requires '/' !in n
    ensures BaseName(dir + n) == n
  {
    if dir == [] {
      assert dir + n == n;
    } else {
      RFindLast(dir, n, '/');
      assert (dir + n)[|dir|..] == n;
    }
  }

  /** The stem of the name `stem.ext` is `stem`. */
  lemma StemOfName(stem: string, ext: string)
    requires stem != [] && ext != [] && '.' !in ext
    ensures var n := stem + "." + ext; RFind(n, '.') == |stem| && n[..|stem|] == stem
  {
    RFindLast(stem + ".", ext, '.');
    assert (stem + "." + ext)[..|stem|] == stem;
  }

  /** The stem of `dir/stem.ext` is `stem`. */
  lemma StemOfPath(dir: string, stem: string, ext: string)
    requires dir == [] || dir[|dir| - 1] == '/'
    requires stem != [] && '/' !in stem && '/' !in ext && '.' !in ext && ext != []
    ensures Stem(dir + stem + "." + ext) == stem
  {
    var n := stem + "." + ext;
    assert dir + stem + "." + ext == dir + n;
    assert '/' !in n by {
      forall k | 0 <= k < |n| ensures n[k] != '/' {
        if k < |stem| {
          assert n[k] == stem[k];
        } else if k > |stem| {
          assert n[k] == ext[k - |stem| - 1];
        }
      }
    }
    BaseNameOfPath(dir, n);
    StemOfName(stem, ext);
  }

  // ---- what the methods compute ---------------------------------------------------

  /** `_rename` as `read` calls it: "auto" needs the stem that `read` records. */
  function RenameResult(d: Data, name: string, stem: Option<string>): Option<(Data, string)> {
    if name == "auto" && stem.None? then None
    else RenamedAsWritten(d, name, if stem.Some? then stem.value else "")
  }

  /** The edits `read` makes after parsing a file not named "none": the
      renaming and both weight updates, each failure stopping the rest. */
  function Adjusted(d: Data, name: string, stem: string, w: Weight): (Data, string, bool) {
    match RenamedAsWritten(d, name, stem)
    case None => (d, name, false)
    case Some((d2, name2)) =>
      match Reweighted(d2, w)
      case None => (d2, name2, false)
      case Some(d3) =>
        match UpdatedIsotopesAsWritten(d3, w)
        case None => (d3, name2, false)
        case Some(d4) => (d4, name2, true)
  }

  /** What `read` leaves in `(data, name)`, and whether it returns rather
      than raises: the scan, the five parsers and, unless the name is
      "none", the edits above. */
  function ReadResult(d: Data, name: string, stem: string, w: Weight, lines: seq<string>): (Data, string, bool) {
    match ScanLines(lines)
    case None => (d, name, false)
    case Some(c) =>
      var (d1, parsed) := ParseCards(d, c);
      if !parsed then (d1, name, false)
      else if name == "none" then (d1, name, true)
      else Adjusted(d1, name, stem, w)
  }

  function Last<T>(xs: seq<T>): T
    requires xs != []
  {
    xs[|xs| - 1]
  }

  /** `__add__`: the compound's data, `None` where it raises, and the data
      the added isotope is left with (its numbers are bumped in place
      before the concatenation). */
  function AddResult(self: Data, iso: Data): (Option<Data>, Data) {
    match LastNumber(self.spin, (g: SpinGroup) => g.info, "group_number")
    case None => (None, iso)
    case Some(lastGroup) => AddBumped(self, BumpGroupNumbers(iso, lastGroup))
  }

  /** `int(xs[-1]…[key])`: `None` where it raises. */
  function LastNumber<T>(xs: Option<seq<T>>, rec: T -> Record, key: string): Option<int> {
    if xs.None? || xs.value == [] then None else IntField(rec(Last(xs.value)), key)
  }

  /** `__add__` once the isotope's group numbers are bumped. */
  function AddBumped(self: Data, bumped: (Data, bool)): (Option<Data>, Data) {
    if !bumped.1 then (None, bumped.0)
    else
      match LastNumber(self.resonances, (r: Record) => r, "igroup")
      case None => (None, bumped.0)
      case Some(lastIgroup) => AddRebumped(self, BumpIgroupNumbers(bumped.0, lastIgroup))
  }

  /** `__add__` once the isotope's igroup numbers are bumped too. */
  function AddRebumped(self: Data, bumped: (Data, bool)): (Option<Data>, Data) {
    if !bumped.1 then (None, bumped.0) else (Joined(self, bumped.0), bumped.0)
  }

  /** The concatenation `__add__` stores in the compound; the isotopes stay `self`'s. */
  function Joined(a: Data, b: Data): Option<Data> {
    if a.pairs.None? || b.pairs.None? || a.spin.None? || b.spin.None? || a.resonances.None? || b.resonances.None?
       || a.radii.None? || b.radii.None? then None
    else Some(a.(pairs := Some(a.pairs.value + b.pairs.value),
                 spin := Some(a.spin.value + b.spin.value),
                 resonances := Some(a.resonances.value + b.resonances.value),
                 radii := Some(a.radii.value + b.radii.value)))
  }

  /** The five parsers of `read`, storing each key as it is parsed. */
  method ParseSections(d: Data, c: Cards) returns (r: Data, ok: bool)
    ensures (r, ok) == ParseCards(d, c)
  {
    var pairs := ParseRecordCards(ParticlePairFormat, c.pairs);
    r := d.(pairs := Some(pairs));
    var spin := ParseSpinGroupCards(c.spin);
    if spin.None? {
      return r, false;
    }
    r := r.(spin := spin);
    var radii := ParseChannelRadiiCards(c.radii);
    if radii.None? {
      return r, false;
    }
    r := r.(radii := radii);
    var resonances := ParseRecordCards(ResonanceFormat, c.resonances);
    r := r.(resonances := Some(resonances));
    var isotopes := ParseRecordCards(IsotopicMassFormat, c.isotopes);
    r, ok := r.(isotopes := Some(isotopes)), true;
  }

  /** `_update_isotopic_weight` on the data. */
  method Reweigh(d: Data, w: Weight) returns (r: Option<Data>)
    ensures r == Reweighted(d, w)
  {
    if d.spin.None? {
      return None;
    }
    var gs := StampGroups(d.spin.value, RJust(w.fixed7, 10));
    r := Some(d.(spin := Some(gs)));
  }

  /** `_update_isotopic_masses_abundance` on the data. */
  method UpdateIsotopes(d: Data, w: Weight) returns (r: Option<Data>)
    ensures r == UpdatedIsotopesAsWritten(d, w)
  {
    if d.isotopes.None? {
      return None;
    }
    if d.isotopes.value != [] {
      var cards := StampCards(d.isotopes.value, RJust(w.fixed7, 10));
      return Some(d.(isotopes := Some(cards)));
    }
    if d.spin.None? {
      return None;
    }
    var numbers := GroupNumbersText(d.spin.value);
    if numbers.None? {
      return None;
    }
    var groups := LayOutGroups(numbers.value);
    if d.pairs.None? || d.pairs.value == [] || "mass_b" !in d.pairs.value[0] {
      return None;
    }
    var card := IsotopeCard(d.pairs.value[0]["mass_b"], w, groups);
    r := Some(d.(isotopes := Some([card])));
  }

  /** The four `+=` of `__add__`. */
  method JoinData(a: Data, b: Data) returns (r: Option<Data>)
    ensures r == Joined(a, b)
  {
    if a.pairs.None? || b.pairs.None? || a.spin.None? || b.spin.None? || a.resonances.None? || b.resonances.None?
       || a.radii.None? || b.radii.None? {
      return None;
    }
    r := Some(a.(pairs := Some(a.pairs.value + b.pairs.value),
                 spin := Some(a.spin.value + b.spin.value),
                 resonances := Some(a.resonances.value + b.resonances.value),
                 radii := Some(a.radii.value + b.radii.value)));
  }

  // ---- the class ----------------------------------------------------------------

  class ParFile {
    var filename: string
    var weight: Weight
    var name: string
    /** `self._filepath.stem`, known once `read` has run. */
    var stem: Option<string>
    var data: Data

    /** Every stored record has the fields of its registry. */
    ghost predicate Valid()
      reads this
    {
      WellKeyed(data)
    }

    constructor (filename: string, name: string, weight: Weight)
      ensures this.filename == filename && this.name == name && this.weight == weight
      ensures stem == None && data == NoData && Valid()
    {
      this.filename := filename;
      this.weight := weight;
      this.name := name;
      stem := None;
      data := NoData;
    }

    /** `deepcopy(other)`. */
    constructor Copy(other: ParFile)
      ensures filename == other.filename && weight == other.weight && name == other.name
      ensures stem == other.stem && data == other.data
    {
      filename := other.filename;
      weight := other.weight;
      name := other.name;
      stem := other.stem;
      data := other.data;
    }

    /** `read`, over the lines of the file: `ok` is false where it raises. */
    method Read(lines: seq<string>) returns (ok: bool)
      modifies this
      ensures filename == old(filename) && weight == old(weight) && stem == Some(Stem(filename))
      ensures (data, name, ok) == ReadResult(old(data), old(name), Stem(filename), weight, lines)
      ensures old(Valid()) ==> Valid()
    {
      stem := Some(Stem(filename));
      var cards := ScanFile(lines);
      if cards.None? {
        return false;
      }
      ok := Load(cards.value);
      if !ok || name == "none" {
        return;
      }
      ok := Adjust();
    }

    /** The five `_parse_*` calls of `read`. */
    method Load(c: Cards) returns (ok: bool)
      modifies this
      ensures filename == old(filename) && weight == old(weight) && name == old(name) && stem == old(stem)
      ensures (data, ok) == ParseCards(old(data), c)
      ensures old(Valid()) ==> Valid()
    {
      if Valid() {
        ParseCardsKeyed(data, c);
      }
      data, ok := ParseSections(data, c);
    }

    /** The edits `read` makes after parsing. */
    method Adjust() returns (ok: bool)
      modifies this
      requires stem.Some?
      ensures filename == old(filename) && weight == old(weight) && stem == old(stem)
      ensures (data, name, ok) == Adjusted(old(data), old(name), stem.value, weight)
      ensures old(Valid()) ==> Valid()
    {
      ok := Rename();
      if !ok {
        return;
      }
      ok := UpdateIsotopicWeight();
      if !ok {
        return;
      }
      ok := UpdateIsotopicMassesAbundance();
    }

    /** `_rename`, every pair taking the new name of the last iteration. */
    method Rename() returns (ok: bool)
      modifies this
      ensures filename == old(filename) && weight == old(weight) && stem == old(stem)
      ensures ok <==> RenameResult(old(data), old(name), stem).Some?
      ensures ok ==> (data, name) == RenameResult(old(data), old(name), stem).value
      ensures !ok ==> data == old(data) && name == old(name)
      ensures old(Valid()) ==> Valid()
    {
      if name == "auto" && stem.None? {
        return false;
      }
      var r := RenamePairs(data, name, if stem.Some? then stem.value else "");
      if r.None? {
        return false;
      }
      if Valid() {
        RenamedKeyed(data, name, if stem.Some? then stem.value else "", true);
      }
      data, name, ok := r.value.0, r.value.1, true;
    }

    /** `_bump_group_number`. */
    method BumpGroupNumber(inc: int) returns (ok: bool)
      modifies this
      ensures filename == old(filename) && weight == old(weight) && name == old(name) && stem == old(stem)
      ensures (data, ok) == BumpGroupNumbers(old(data), inc)
      ensures old(Valid()) ==> Valid()
    {
      if Valid() {
        BumpGroupNumbersKeyed(data, inc);
      }
      data, ok := BumpGroups(data, inc);
    }

    /** `_bump_igroup_number`. */
    method BumpIgroupNumber(inc: int) returns (ok: bool)
      modifies this
      ensures filename == old(filename) && weight == old(weight) && name == old(name) && stem == old(stem)
      ensures (data, ok) == BumpIgroupNumbers(old(data), inc)
      ensures old(Valid()) ==> Valid()
    {
      if Valid() {
        BumpIgroupNumbersKeyed(data, inc);
      }
      data, ok := BumpIgroups(data, inc);
    }

    /** `_update_isotopic_weight`. */
    method UpdateIsotopicWeight() returns (ok: bool)
      modifies this
      ensures filename == old(filename) && weight == old(weight) && name == old(name) && stem == old(stem)
      ensures ok <==> Reweighted(old(data), weight).Some?
      ensures data == (if ok then Reweighted(old(data), weight).value else old(data))
      ensures old(Valid()) ==> Valid()
    {
      var r := Reweigh(data, weight);
      if r.None? {
        return false;
      }
      if Valid() {
        ReweightedKeyed(data, weight);
      }
      data, ok := r.value, true;
    }

    /** `_update_isotopic_masses_abundance`, laying out the group list as written. */
    method UpdateIsotopicMassesAbundance() returns (ok: bool)
      modifies this
      ensures filename == old(filename) && weight == old(weight) && name == old(name) && stem == old(stem)
      ensures ok <==> UpdatedIsotopesAsWritten(old(data), weight).Some?
      ensures data == (if ok then UpdatedIsotopesAsWritten(old(data), weight).value else old(data))
      ensures old(Valid()) ==> Valid()
    {
      var r := UpdateIsotopes(data, weight);
      if r.None? {
        return false;
      }
      if Valid() {
        UpdatedIsotopesKeyed(data, weight, GroupListAsWritten);
      }
      data, ok := r.value, true;
    }

    /** `write`, up to the lines it joins into the file; `None` where it raises. */
    method Write() returns (lines: Option<seq<string>>)
      ensures lines == WrittenLines(data)
    {
      lines := WriteLines(data);
    }

    /** `self + isotope`: a fresh compound, or `null` where it raises; the
        isotope's numbers are bumped in place either way. */
    method Add(isotope: ParFile) returns (compound: ParFile?)
      modifies isotope
      ensures isotope.filename == old(isotope.filename) && isotope.weight == old(isotope.weight)
      ensures isotope.name == old(isotope.name) && isotope.stem == old(isotope.stem)
      ensures isotope.data == AddResult(old(data), old(isotope.data)).1
      ensures compound == null <==> AddResult(old(data), old(isotope.data)).0.None?
      ensures compound != null ==>
        && fresh(compound) && compound.data == AddResult(old(data), old(isotope.data)).0.value
        && compound.filename == old(filename) && compound.weight == old(weight)
        && compound.name == old(name) && compound.stem == old(stem)
      ensures old(isotope.Valid()) ==> isotope.Valid()
      ensures compound != null && old(Valid()) && old(isotope.Valid()) ==> compound.Valid()
    {
      var c := new ParFile.Copy(this);
      ghost var self0, iso0 := data, isotope.data;
      if Valid() && isotope.Valid() {
        AddedKeyed(self0, iso0);
      }
      var lastGroup := LastNumber(c.data.spin, (g: SpinGroup) => g.info, "group_number");
      if lastGroup.None? {
        return null;
      }
      var bumped := isotope.BumpGroupNumber(lastGroup.value);
      assert AddResult(self0, iso0) == AddBumped(self0, (isotope.data, bumped));
      compound := c.AddBumpedInto(isotope, bumped);
    }

    /** The rest of `__add__`, on the fresh copy, once the isotope's group
        numbers have been bumped (`bumped` is whether that succeeded). */
    method AddBumpedInto(isotope: ParFile, bumped: bool) returns (compound: ParFile?)
      requires isotope != this
      modifies this, isotope
      ensures isotope.filename == old(isotope.filename) && isotope.weight == old(isotope.weight)
      ensures isotope.name == old(isotope.name) && isotope.stem == old(isotope.stem)
      ensures filename == old(filename) && weight == old(weight) && name == old(name) && stem == old(stem)
      ensures isotope.data == AddBumped(old(data), (old(isotope.data), bumped)).1
      ensures compound == null <==> AddBumped(old(data), (old(isotope.data), bumped)).0.None?
      ensures compound != null ==> compound == this && data == AddBumped(old(data), (old(isotope.data), bumped)).0.value
      ensures old(isotope.Valid()) ==> isotope.Valid()
    {
      if !bumped {
        return null;
      }
      var lastIgroup := LastNumber(data.resonances, (r: Record) => r, "igroup");
      if lastIgroup.None? {
        return null;
      }
      var rebumped := isotope.BumpIgroupNumber(lastIgroup.value);
      if !rebumped {
        return null;
      }
      var joined := JoinData(data, isotope.data);
      if joined.None? {
        return null;
      }
      data := joined.value;
      compound := this;
    }
  }

  // ---- properties of the methods' results ---------------------------------------------

  lemma AllHaveAppend(reg: Registry, a: seq<Record>, b: seq<Record>)
    requires AllHave(reg, a) && AllHave(reg, b)
    ensures AllHave(reg, a + b)
  {
    forall k | 0 <= k < |a + b| ensures HasFields(reg, (a + b)[k]) {
      if k < |a| {
        assert (a + b)[k] == a[k];
      } else {
        assert (a + b)[k] == b[k - |a|];
      }
    }
  }

  lemma GroupsKeyedAppend(a: seq<SpinGroup>, b: seq<SpinGroup>)
    requires GroupsKeyed(a) && GroupsKeyed(b)
    ensures GroupsKeyed(a + b)
  {
    forall k | 0 <= k < |a + b| ensures GroupKeyed((a + b)[k]) {
      if k < |a| {
        assert (a + b)[k] == a[k];
      } else {
        assert (a + b)[k] == b[k - |a|];
      }
    }
  }

  lemma JoinedKeyed(a: Data, b: Data)
    requires WellKeyed(a) && WellKeyed(b) && Joined(a, b).Some?
    ensures WellKeyed(Joined(a, b).value)
  {
    AllHaveAppend(ParticlePairFormat, a.pairs.value, b.pairs.value);
    AllHaveAppend(ResonanceFormat, a.resonances.value, b.resonances.value);
    GroupsKeyedAppend(a.spin.value, b.spin.value);
  }

  /** The compound and the bumped isotope keep every record keyed. */
  lemma AddedKeyed(self: Data, iso: Data)
    requires WellKeyed(self) && WellKeyed(iso)
    ensures WellKeyed(AddResult(self, iso).1)
    ensures AddResult(self, iso).0.Some? ==> WellKeyed(AddResult(self, iso).0.value)
  {
    var last := LastNumber(self.spin, (g: SpinGroup) => g.info, "group_number");
    if last.Some? {
      BumpGroupNumbersKeyed(iso, last.value);
      AddBumpedKeyed(self, BumpGroupNumbers(iso, last.value));
    }
  }

  lemma AddBumpedKeyed(self: Data, bumped: (Data, bool))
    requires WellKeyed(self) && WellKeyed(bumped.0)
    ensures WellKeyed(AddBumped(self, bumped).1)
    ensures AddBumped(self, bumped).0.Some? ==> WellKeyed(AddBumped(self, bumped).0.value)
  {
    var last := LastNumber(self.resonances, (r: Record) => r, "igroup");
    if bumped.1 && last.Some? {
      var rebumped := BumpIgroupNumbers(bumped.0, last.value);
      assert AddBumped(self, bumped) == AddRebumped(self, rebumped);
      assert WellKeyed(rebumped.0) by { BumpIgroupNumbersKeyed(bumped.0, last.value); }
      AddRebumpedKeyed(self, rebumped);
    }
  }

  lemma AddRebumpedKeyed(self: Data, rebumped: (Data, bool))
    requires WellKeyed(self) && WellKeyed(rebumped.0)
    ensures WellKeyed(AddRebumped(self, rebumped).1)
    ensures AddRebumped(self, rebumped).0.Some? ==> WellKeyed(AddRebumped(self, rebumped).0.value)
  {
    if rebumped.1 && Joined(self, rebumped.0).Some? {
      JoinedKeyed(self, rebumped.0);
    }
  }

  // ---- what a successful read leaves ------------------------------------------

  /** A file read in full stores every key, whatever was stored before. */
  lemma ParsedKeyed(d: Data, c: Cards)
    requires ParseCards(d, c).1
    ensures WellKeyed(ParseCards(d, c).0)
  {
    ParseCardsKeyed(NoData, c);
    assert ParseCards(d, c).0 == ParseCards(NoData, c).0;
  }

  /** After the edits of a successful `read`, every spin group carries the
      isotope's weight, right-justified, and there is at least one
      isotopic-mass card, each with an abundance: restamped cards
      right-justify it and a new card left-justifies it. */
  lemma AdjustedStamps(d: Data, name: string, stem: string, w: Weight)
    requires WellKeyed(d) && Adjusted(d, name, stem, w).2
    ensures var r := Adjusted(d, name, stem, w).0;
      && WellKeyed(r) && r.spin.Some? && r.isotopes.Some? && r.isotopes.value != []
      && (forall j :: 0 <= j < |r.spin.value| ==>
            "isotopic_abundance" in r.spin.value[j].info
            && r.spin.value[j].info["isotopic_abundance"] == RJust(w.fixed7, 10))
      && (forall j :: 0 <= j < |r.isotopes.value| ==>
            "abundance" in r.isotopes.value[j]
            && r.isotopes.value[j]["abundance"] in {RJust(w.fixed7, 10), LJust(w.fixed7, 10)})
  {
    var d2 := RenamedAsWritten(d, name, stem).value.0;
    RenamedKeyed(d, name, stem, true);
    var d3 := Reweighted(d2, w).value;
    ReweightedKeyed(d2, w);
    ReweightedSpec(d2, w);
    UpdatedIsotopesKeyed(d3, w, GroupListAsWritten);
    var d4 := UpdatedIsotopesAsWritten(d3, w).value;
    if d3.isotopes.value != [] {
      RestampedCards(d3, w, GroupListAsWritten);
    } else {
      assert d4.isotopes.value[0]["abundance"] == LJust(w.fixed7, 10);
    }
    assert d4.spin == d3.spin;
  }

  /** What a successful `read` of a file not named "none" leaves. */
  lemma ReadStampsWeight(d: Data, name: string, stem: string, w: Weight, lines: seq<string>)
    requires name != "none" && ReadResult(d, name, stem, w, lines).2
    ensures var r := ReadResult(d, name, stem, w, lines).0;
      && WellKeyed(r) && r.spin.Some? && r.isotopes.Some? && r.isotopes.value != []
      && (forall j :: 0 <= j < |r.spin.value| ==>
            "isotopic_abundance" in r.spin.value[j].info
            && r.spin.value[j].info["isotopic_abundance"] == RJust(w.fixed7, 10))
      && (forall j :: 0 <= j < |r.isotopes.value| ==>
            "abundance" in r.isotopes.value[j]
            && r.isotopes.value[j]["abundance"] in {RJust(w.fixed7, 10), LJust(w.fixed7, 10)})
  {
    var c := ScanLines(lines).value;
    ParsedKeyed(d, c);
    AdjustedStamps(ParseCards(d, c).0, name, stem, w);
  }

  // ---- what a successful addition leaves ----------------------------------------

  /** Adding an isotope whose group and igroup numbers are all integers to
      data whose last ones are `lastGroup` and `lastIgroup` succeeds when
      every section is there; the compound holds `self`'s sections followed
      by the isotope's, its group numbers, channel-radii group ids and
      igroups raised by those last numbers, and keeps `self`'s isotopic
      masses. */
  lemma AddContinuesNumbering(self: Data, iso: Data, lastGroup: int, lastIgroup: int, vals: seq<int>, ivals: seq<int>)
    requires self.spin.Some? && self.spin.value != [] && IntField(Last(self.spin.value).info, "group_number") == Some(lastGroup)
    requires self.resonances.Some? && self.resonances.value != [] && IntField(Last(self.resonances.value), "igroup") == Some(lastIgroup)
    requires self.pairs.Some? && self.radii.Some?
    requires iso.pairs.Some? && iso.radii.Some?
    requires iso.spin.Some? && NumbersAre(GroupInfos(iso.spin.value), "group_number", vals, ParseInt)
    requires iso.resonances.Some? && NumbersAre(iso.resonances.value, "igroup", ivals, ParseInt)
    ensures AddResult(self, iso).0.Some?
    ensures var c := AddResult(self, iso).0.value; var n, m := |self.spin.value|, |self.resonances.value|;
      && c.isotopes == self.isotopes
      && c.pairs == Some(self.pairs.value + iso.pairs.value)
      && c.radii == Some(self.radii.value + ShiftGroupIds(iso.radii.value, lastGroup))
      && |c.spin.value| == n + |iso.spin.value| && c.spin.value[..n] == self.spin.value
      && SpinBumped(iso.spin.value, c.spin.value[n..], vals, lastGroup, ParseInt)
      && |c.resonances.value| == m + |iso.resonances.value| && c.resonances.value[..m] == self.resonances.value
      && NumbersAre(c.resonances.value[m..], "igroup", Plus(ivals, lastIgroup), ParseInt)
  {
    BumpGroupNumbersAdds(iso, lastGroup, vals);
    var iso1 := BumpGroupNumbers(iso, lastGroup).0;
    BumpIgroupNumbersAdds(iso1, lastIgroup, ivals);
    var iso2 := BumpIgroupNumbers(iso1, lastIgroup).0;
    assert AddResult(self, iso) == AddRebumped(self, BumpIgroupNumbers(iso1, lastIgroup));
    var c := Joined(self, iso2).value;
    assert c.spin.value[|self.spin.value|..] == iso2.spin.value;
    assert c.resonances.value[|self.resonances.value|..] == iso2.resonances.value;
  }
}
