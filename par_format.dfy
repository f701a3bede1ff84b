/** The fixed-column layout of the SAMMY parameter file: five column
    registries, the particle-pair text template, and the record codec that
    slices a line into named fields and writes named fields back into a line. */
module ParFormat {
  import opened Text

  /** One named column range `[start, stop)`, 0-based, like a Python `slice`. */
  datatype Field = Field(name: string, start: nat, stop: nat)

  type Registry = seq<Field>

  /** A decoded record: field name to the raw text of its columns. */
  type Record = map<string, string>

  function Width(f: Field): int { f.stop - f.start }

  /** Spin-group header card (card 10.2 of the SAMMY manual). */
  const SpinGroupFormat: Registry := [
    Field("group_number", 0, 3), Field("exclude", 4, 5), Field("n_entrance_channel", 7, 10),
    Field("n_exit_channel", 12, 15), Field("spin", 15, 20), Field("isotopic_abundance", 20, 30)]

  /** Spin-channel card. */
  const SpinChannelFormat: Registry := [
    Field("channel_number", 2, 5), Field("channel_name", 7, 15), Field("exclude", 17, 18),
    Field("L_spin", 18, 20), Field("channel_spin", 20, 30), Field("boundary_condition", 30, 40),
    Field("effective_radius", 41, 52), Field("true_radius", 52, 63)]

  /** Resonance card; `igroup` spans the five vary-flag columns and comes last.
      The first name keeps the source's spelling. */
  const ResonanceFormat: Registry := [
    Field("reosnance_energy", 0, 11), Field("capture_width", 11, 22), Field("neutron_width", 22, 33),
    Field("fission1_width", 33, 44), Field("fission2_width", 44, 55), Field("vary_energy", 55, 57),
    Field("vary_capture_width", 57, 59), Field("vary_neutron_width", 59, 61),
    Field("vary_fission1_width", 61, 63), Field("vary_fission2_width", 63, 65), Field("igroup", 55, 67)]

  /** Particle-pair card: three file lines read as one text, offsets counted in
      that joined text. */
  const ParticlePairFormat: Registry := [
    Field("name", 5, 14), Field("particle_a", 29, 38), Field("particle_b", 54, 62),
    Field("charge_a", 72, 74), Field("charge_b", 85, 87), Field("vary_penetrability", 101, 102),
    Field("vary_shift", 113, 114), Field("spin_a", 124, 129), Field("spin_b", 137, 143),
    Field("mass_a", 151, 171), Field("mass_b", 179, 199)]

  /** Isotopic-mass card. */
  const IsotopicMassFormat: Registry := [
    Field("atomic_mass", 0, 10), Field("abundance", 10, 20), Field("abundance_uncertainty", 20, 30),
    Field("vary_abundance", 30, 32), Field("spin_groups", 32, 78)]

  /** The three lines of the text a particle-pair card is written into. */
  const PairLine1: string := "Name=" + Spaces(13) + "Particle a=" + Spaces(14) + "Particle b=" + Spaces(8)
  const PairLine2: string := Spaces(6) + "Za=" + Spaces(10) + "Zb=" + Spaces(11) + "Pent=1" + Spaces(5) + "Shift=0"
  const PairLine3: string := Spaces(6) + "Sa=" + Spaces(10) + "Sb=" + Spaces(11) + "Ma=" + Spaces(25) + "Mb=" + Spaces(20)

  /** The template of `_write_particle_pairs`, 199 characters; its triple-quoted
      source gives the second and third lines one more leading space than the
      file shows, which the writer removes after filling. */
  const PairTemplate: string := PairLine1 + "\n" + PairLine2 + "\n" + PairLine3

  /** The 80 blank columns every other card is written into. */
  const Blank80: string := Spaces(80)

  predicate Covers(f: Field, j: int) { f.start <= j < f.stop }

  /** Every slice is non-empty and ends within `n` columns. */
  predicate WithinWidth(reg: Registry, n: nat) {
    forall k :: 0 <= k < |reg| ==> reg[k].start < reg[k].stop <= n
  }

  predicate DistinctNames(reg: Registry) {
    forall k, m :: 0 <= k < m < |reg| ==> reg[k].name != reg[m].name
  }

  predicate HasFields(reg: Registry, rec: Record) {
    forall k :: 0 <= k < |reg| ==> reg[k].name in rec
  }

  /** Every value is no wider than its columns. */
  predicate Fits(reg: Registry, rec: Record)
    requires HasFields(reg, rec)
  {
    forall k :: 0 <= k < |reg| ==> |rec[reg[k].name]| <= Width(reg[k])
  }

  /** The last field of the registry whose columns include column `j`. */
  function Owner(reg: Registry, j: int): (o: Option<nat>)
    ensures o.Some? ==> o.value < |reg| && Covers(reg[o.value], j)
  {
    if reg == [] then None
    else if Covers(reg[|reg| - 1], j) then Some(|reg| - 1)
    else Owner(reg[..|reg| - 1], j)
  }

  /** `Owner` finds the last covering field, and finds none only when no field covers `j`. */
  lemma {:induction false} OwnerIsLast(reg: Registry, j: int)
    ensures Owner(reg, j).Some? ==> forall m :: Owner(reg, j).value < m < |reg| ==> !Covers(reg[m], j)
    ensures Owner(reg, j).None? <==> forall m :: 0 <= m < |reg| ==> !Covers(reg[m], j)
    decreases |reg|
  {
    if reg != [] && !Covers(reg[|reg| - 1], j) {
      var prefix := reg[..|reg| - 1];
      OwnerIsLast(prefix, j);
      assert forall m :: 0 <= m < |prefix| ==> prefix[m] == reg[m];
    }
  }

  /** `_read_*`: each field is `line[start:stop]`; a dict comprehension keeps
      the last value of a repeated name. */
  function Decode(reg: Registry, line: string): (r: Record)
    ensures HasFields(reg, r)
    decreases |reg|
  {
    if reg == [] then map[]
    else
      var f := reg[|reg| - 1];
      Decode(reg[..|reg| - 1], line)[f.name := Slice(line, f.start, f.stop)]
  }

  /** With distinct names, each decoded value is exactly its slice. */
  lemma {:induction false} DecodeValue(reg: Registry, line: string, k: nat)
    requires DistinctNames(reg) && k < |reg|
    ensures Decode(reg, line)[reg[k].name] == Slice(line, reg[k].start, reg[k].stop)
    decreases |reg|
  {
    var prefix := reg[..|reg| - 1];
    if k < |reg| - 1 {
      assert prefix[k] == reg[k];
      assert DistinctNames(prefix) by {
        forall a, b | 0 <= a < b < |prefix| ensures prefix[a].name != prefix[b].name {
          assert prefix[a] == reg[a] && prefix[b] == reg[b];
        }
      }
      DecodeValue(prefix, line, k);
    }
  }

  /** Python list slice assignment `buf[i:j] = x`: the clamped range is
      replaced, so the buffer grows or shrinks by the difference in length and
      everything after the range moves with it. */
  function SliceAssign(buf: string, i: nat, j: nat, x: string): (r: string)
    ensures j <= |buf| && i <= j ==> |r| == |buf| - (j - i) + |x|

  {
    var lo := Min(i, |buf|);
    var hi := Max(lo, Min(j, |buf|));
    buf[..lo] + x + buf[hi..]
  }

  /** What `_write_*` computes: start from `base` and assign each value,
      left-justified to its width, to its slice, in registry order. */
  function Encoded(base: string, reg: Registry, rec: Record): string
    requires HasFields(reg, rec)
    decreases |reg|
  {
    if reg == [] then base
    else
      var f := reg[|reg| - 1];
      SliceAssign(Encoded(base, reg[..|reg| - 1], rec), f.start, f.stop, LJust(rec[f.name], Width(f)))
  }

  /** `_write_spin_group`, `_write_spin_channel`, `_write_resonance_params`,
      `_write_isotopic_masses` (base `Blank80`) and the slot filling of
      `_write_particle_pairs` (base `PairTemplate`). */
  method EncodeRecord(base: string, reg: Registry, rec: Record) returns (line: string)
    requires HasFields(reg, rec)
    ensures line == Encoded(base, reg, rec)
  {
    line := base;
    for k := 0 to |reg|
      invariant line == Encoded(base, reg[..k], rec)
    {
      var f := reg[k];
      assert reg[..k + 1][..k] == reg[..k];
      line := SliceAssign(line, f.start, f.stop, LJust(rec[f.name], Width(f)));
    }
    assert reg[..|reg|] == reg;
  }

  /** `_write_particle_pairs`: fill the template, then drop the space after each newline. */
  method EncodeParticlePair(rec: Record) returns (text: string)
    requires HasFields(ParticlePairFormat, rec)
    ensures text == ReplaceAll(Encoded(PairTemplate, ParticlePairFormat, rec), "\n ", "\n")
  {
    var filled := EncodeRecord(PairTemplate, ParticlePairFormat, rec);
    text := ReplaceAll(filled, "\n ", "\n");
  }

  // ---- properties of the codec ----------------------------------------------

  /** When every value fits, encoding keeps the length of the base. */
  lemma {:induction false} EncodedLength(base: string, reg: Registry, rec: Record)
    requires WithinWidth(reg, |base|) && HasFields(reg, rec) && Fits(reg, rec)
    ensures |Encoded(base, reg, rec)| == |base|
    decreases |reg|
  {
    if reg != [] {
      var prefix := reg[..|reg| - 1];
      assert forall k :: 0 <= k < |prefix| ==> prefix[k] == reg[k];
      EncodedLength(base, prefix, rec);
    }
  }

  /** The character a field's value puts in column `j` once left-justified. */
  function FieldChar(rec: Record, f: Field, j: int): char
    requires f.name in rec && Covers(f, j)
  {
    var v := rec[f.name];
    if j - f.start < |v| then v[j - f.start] else ' '
  }

  /** The character column `j` should hold: its owner's, or the base's. */
  function Expected(base: string, reg: Registry, rec: Record, j: nat): char
    requires HasFields(reg, rec) && j < |base|
  {
    match Owner(reg, j)
    case None => base[j]
    case Some(k) => FieldChar(rec, reg[k], j)
  }

  /** Column `j` of an encoded line holds the text of the last field covering
      it, or the base's character where no field does. */
  lemma {:induction false} EncodedAt(base: string, reg: Registry, rec: Record, j: nat)
    requires WithinWidth(reg, |base|) && HasFields(reg, rec) && Fits(reg, rec) && j < |base|
    ensures |Encoded(base, reg, rec)| == |base|
    ensures Encoded(base, reg, rec)[j] == Expected(base, reg, rec, j)
    decreases |reg|
  {
    EncodedLength(base, reg, rec);
    if reg != [] {
      var prefix := reg[..|reg| - 1];
      var f := reg[|reg| - 1];
      assert forall k :: 0 <= k < |prefix| ==> prefix[k] == reg[k];
      EncodedAt(base, prefix, rec, j);
      EncodedLength(base, prefix, rec);
      var v := LJust(rec[f.name], Width(f));
      var e := Encoded(base, prefix, rec);
      assert Encoded(base, reg, rec) == SliceAssign(e, f.start, f.stop, v);
      SliceAssignAt(e, f.start, f.stop, v, j);
      if Covers(f, j) {
        LJustAt(rec[f.name], Width(f), j - f.start);
        assert v[j - f.start] == FieldChar(rec, f, j);
        assert Owner(reg, j) == Some(|reg| - 1);
      } else {
        assert Owner(reg, j) == Owner(prefix, j);
        assert Expected(base, reg, rec, j) == Expected(base, prefix, rec, j);
        assert Encoded(base, reg, rec)[j] == e[j];
      }
    }
  }

  /** Within range, the slice is replaced by `x` and the rest kept on either side. */
  lemma SliceAssignShape(buf: string, i: nat, j: nat, x: string)
    requires i <= j <= |buf|
    ensures SliceAssign(buf, i, j, x)[..i] == buf[..i]
    ensures SliceAssign(buf, i, j, x)[i..i + |x|] == x
    ensures SliceAssign(buf, i, j, x)[i + |x|..] == buf[j..]
  {
  }

  /** Assigning a slice of its own width changes exactly the columns of that slice. */
  lemma SliceAssignAt(buf: string, i: nat, j: nat, x: string, c: nat)
    requires i <= j <= |buf| && |x| == j - i && c < |buf|
    ensures |SliceAssign(buf, i, j, x)| == |buf|
    ensures SliceAssign(buf, i, j, x)[c] == if i <= c < j then x[c - i] else buf[c]
  {
    var e := SliceAssign(buf, i, j, x);
    SliceAssignShape(buf, i, j, x);
    if i <= c < j {
      assert e[c] == e[i..i + |x|][c - i];
    } else if c < i {
      assert e[c] == e[..i][c];
    } else {
      assert e[c] == e[i + |x|..][c - j];
    }
  }

  /** With distinct names and slices within the line, every decoded value fits its field. */
  lemma DecodeFits(reg: Registry, line: string)
    requires WithinWidth(reg, |line|) && DistinctNames(reg)
    ensures Fits(reg, Decode(reg, line))
    ensures forall k :: 0 <= k < |reg| ==> Decode(reg, line)[reg[k].name] == line[reg[k].start..reg[k].stop]
  {
    forall k | 0 <= k < |reg| ensures Decode(reg, line)[reg[k].name] == line[reg[k].start..reg[k].stop] {
      DecodeValue(reg, line, k);
    }
  }

  /** One column of the round trip: when every field holds its slice of
      `line`, a column owned by a field gets `line`'s character back and a
      column owned by none gets the base's. */
  lemma EncodeSlicesAt(base: string, reg: Registry, rec: Record, line: string, j: nat)
    requires WithinWidth(reg, |base|) && |line| == |base| && j < |base| && HasFields(reg, rec)
    requires forall k :: 0 <= k < |reg| ==> rec[reg[k].name] == line[reg[k].start..reg[k].stop]
    ensures Fits(reg, rec)
    ensures |Encoded(base, reg, rec)| == |base|
    ensures Encoded(base, reg, rec)[j] == if Owner(reg, j).None? then base[j] else line[j]
  {
    assert Fits(reg, rec) by {
      forall k | 0 <= k < |reg| ensures |rec[reg[k].name]| <= Width(reg[k]) {
        assert rec[reg[k].name] == line[reg[k].start..reg[k].stop];
      }
    }
    EncodedAt(base, reg, rec, j);
    match Owner(reg, j)
    case None =>
    case Some(k) =>
      assert rec[reg[k].name] == line[reg[k].start..reg[k].stop];
      assert FieldChar(rec, reg[k], j) == line[j];
  }

  /** A line whose columns outside every slice match the base decodes and
      re-encodes to itself. */
  lemma EncodeDecode(base: string, reg: Registry, line: string)
    requires WithinWidth(reg, |base|) && DistinctNames(reg) && |line| == |base|
    requires forall j :: 0 <= j < |base| && Owner(reg, j).None? ==> line[j] == base[j]
    ensures HasFields(reg, Decode(reg, line))
    ensures Encoded(base, reg, Decode(reg, line)) == line
  {
    DecodeFits(reg, line);
    EncodedLength(base, reg, Decode(reg, line));
    forall j | 0 <= j < |base| ensures Encoded(base, reg, Decode(reg, line))[j] == line[j] {
      EncodeSlicesAt(base, reg, Decode(reg, line), line, j);
    }
  }

  /** An encoded line keeps the base outside every slice. */
  lemma EncodedKeepsBase(base: string, reg: Registry, rec: Record)
    requires WithinWidth(reg, |base|) && HasFields(reg, rec) && Fits(reg, rec)
    ensures |Encoded(base, reg, rec)| == |base|
    ensures forall j :: 0 <= j < |base| && Owner(reg, j).None? ==> Encoded(base, reg, rec)[j] == base[j]
  {
    EncodedLength(base, reg, rec);
    forall j | 0 <= j < |base| && Owner(reg, j).None? ensures Encoded(base, reg, rec)[j] == base[j] {
      EncodedAt(base, reg, rec, j);
    }
  }

  /** Writing what was read back from a written line writes the same line. */
  lemma EncodeIdempotent(base: string, reg: Registry, rec: Record)
    requires WithinWidth(reg, |base|) && DistinctNames(reg) && HasFields(reg, rec) && Fits(reg, rec)
    ensures HasFields(reg, Decode(reg, Encoded(base, reg, rec)))
    ensures Encoded(base, reg, Decode(reg, Encoded(base, reg, rec))) == Encoded(base, reg, rec)
  {
    EncodedKeepsBase(base, reg, rec);
    EncodeDecode(base, reg, Encoded(base, reg, rec));
  }

  /** Decoding ignores text beyond the last slice. */
  lemma {:induction false} DecodeExtend(reg: Registry, line: string, ext: string)
    requires WithinWidth(reg, |line|)
    ensures Decode(reg, line + ext) == Decode(reg, line)
    decreases |reg|
  {
    if reg != [] {
      var prefix := reg[..|reg| - 1];
      var f := reg[|reg| - 1];
      assert forall k :: 0 <= k < |prefix| ==> prefix[k] == reg[k];
      DecodeExtend(prefix, line, ext);
      assert (line + ext)[f.start..f.stop] == line[f.start..f.stop];
    }
  }

  /** `igroup` is written last over columns 55-66, so its text is what every
      vary flag reads back from the written line. */
  lemma ResonanceIgroupWins(rec: Record, j: nat)
    requires HasFields(ResonanceFormat, rec) && Fits(ResonanceFormat, rec) && 55 <= j < 67
    ensures |Encoded(Blank80, ResonanceFormat, rec)| == 80
    ensures Encoded(Blank80, ResonanceFormat, rec)[j] == LJust(rec["igroup"], 12)[j - 55]
  {
    EncodedAt(Blank80, ResonanceFormat, rec, j);
    assert Owner(ResonanceFormat, j) == Some(10);
    LJustAt(rec["igroup"], 12, j - 55);
  }

  /** Columns 55-66 of a written resonance line are the left-justified `igroup` text. */
  lemma ResonanceIgroupColumns(rec: Record)
    requires HasFields(ResonanceFormat, rec) && Fits(ResonanceFormat, rec)
    ensures |Encoded(Blank80, ResonanceFormat, rec)| == 80
    ensures Encoded(Blank80, ResonanceFormat, rec)[55..67] == LJust(rec["igroup"], 12)
  {
    var line := Encoded(Blank80, ResonanceFormat, rec);
    EncodedLength(Blank80, ResonanceFormat, rec);
    forall i | 0 <= i < 12 ensures line[55..67][i] == LJust(rec["igroup"], 12)[i] {
      ResonanceIgroupWins(rec, i + 55);
    }
  }

  /** Each vary flag (registry entries 5 to 9) decoded from a written
      resonance line is the piece of the `igroup` text over the same columns. */
  lemma ResonanceFlagFromIgroup(rec: Record, k: nat)
    requires HasFields(ResonanceFormat, rec) && Fits(ResonanceFormat, rec) && 5 <= k < 10
    ensures var f := ResonanceFormat[k];
      Decode(ResonanceFormat, Encoded(Blank80, ResonanceFormat, rec))[f.name]
        == LJust(rec["igroup"], 12)[f.start - 55..f.stop - 55]
  {
    var reg, line, g := ResonanceFormat, Encoded(Blank80, ResonanceFormat, rec), LJust(rec["igroup"], 12);
    assert 55 <= reg[k].start < reg[k].stop <= 67 by { ResonanceFlagColumns(k); }
    assert |line| == 80 && line[55..67] == g by { ResonanceIgroupColumns(rec); }
    assert DistinctNames(reg) by { ResonanceNamesDistinct(); }
    DecodeWithin(reg, line, k, 55, g);
  }

  /** A field lying inside a known stretch of the line decodes to the matching piece of it. */
  lemma DecodeWithin(reg: Registry, line: string, k: nat, lo: nat, g: string)
    requires DistinctNames(reg) && k < |reg| && lo <= reg[k].start <= reg[k].stop <= lo + |g| <= |line|
    requires line[lo..lo + |g|] == g
    ensures Decode(reg, line)[reg[k].name] == g[reg[k].start - lo..reg[k].stop - lo]
  {
    var f := reg[k];
    var a, b := f.start - lo, f.stop - lo;
    DecodeValue(reg, line, k);
    SliceOfSlice(line, lo, lo + |g|, a, b);
    assert Slice(line, f.start, f.stop) == line[lo + a..lo + b];
  }

  /** The five vary flags lie inside the `igroup` columns. */
  lemma ResonanceFlagColumns(k: nat)
    requires 5 <= k < 10
    ensures 55 <= ResonanceFormat[k].start < ResonanceFormat[k].stop <= 67
  {
  }

  /** No registry repeats a field name. */
  lemma RegistryNamesDistinct()
    ensures DistinctNames(SpinGroupFormat) && DistinctNames(SpinChannelFormat)
    ensures DistinctNames(ResonanceFormat) && DistinctNames(ParticlePairFormat)
    ensures DistinctNames(IsotopicMassFormat)
  {
    SpinGroupNamesDistinct();
    SpinChannelNamesDistinct();
    ResonanceNamesDistinct();
    ParticlePairNamesDistinct();
    IsotopicMassNamesDistinct();
  }

  lemma SpinGroupNamesDistinct() ensures DistinctNames(SpinGroupFormat) {}
  lemma SpinChannelNamesDistinct() ensures DistinctNames(SpinChannelFormat) {}
  lemma ResonanceNamesDistinct() ensures DistinctNames(ResonanceFormat) {}
  lemma ParticlePairNamesDistinct() ensures DistinctNames(ParticlePairFormat) {}
  lemma IsotopicMassNamesDistinct() ensures DistinctNames(IsotopicMassFormat) {}

  // ---- the particle-pair text ----------------------------------------------

  predicate NoNewlines(reg: Registry, rec: Record)
    requires HasFields(reg, rec)
  {
    forall k :: 0 <= k < |reg| ==> '\n' !in rec[reg[k].name]
  }

  /** The template has its two newlines at 62 and 114, each followed by a space. */
  lemma TemplateShape()
    ensures |PairLine1| == 62 && |PairLine2| == 51 && |PairLine3| == 84 && |PairTemplate| == 199
    ensures '\n' !in PairLine1 && '\n' !in PairLine2 && '\n' !in PairLine3
    ensures PairTemplate[..4] == "Name" && PairTemplate[62] == '\n' && PairTemplate[114] == '\n'
    ensures PairTemplate[63] == ' ' && PairTemplate[64] == ' ' && PairTemplate[69] == 'Z'
    ensures PairTemplate[115] == ' ' && PairTemplate[116] == ' ' && PairTemplate[121] == 'S'
  {
    assert PairTemplate[..62] == PairLine1;
    assert PairTemplate[63..114] == PairLine2;
    assert PairTemplate[115..] == PairLine3;
    assert PairLine1[..5] == "Name=";
    assert PairLine2[6] == 'Z' && PairLine3[6] == 'S';
  }

  /** No particle-pair field touches the template's line ends, the `Name`
      label or the `Za=` and `Sa=` labels. */
  lemma PairColumnsFree(j: nat)
    requires j < 4 || j == 62 || j == 63 || j == 64 || j == 69 || j == 114 || j == 115 || j == 116 || j == 121
    ensures Owner(ParticlePairFormat, j).None?
  {
    OwnerIsLast(ParticlePairFormat, j);
  }

  /** A filled particle-pair text keeps the template's three-line shape. */
  lemma PairFilledColumn(rec: Record, j: nat)
    requires HasFields(ParticlePairFormat, rec) && Fits(ParticlePairFormat, rec)
    requires NoNewlines(ParticlePairFormat, rec) && j < 199
    ensures |Encoded(PairTemplate, ParticlePairFormat, rec)| == 199
    ensures var F := Encoded(PairTemplate, ParticlePairFormat, rec);
      (F[j] == '\n' <==> j == 62 || j == 114)
      && (Owner(ParticlePairFormat, j).None? ==> F[j] == PairTemplate[j])
  {
    TemplateShape();
    EncodedAt(PairTemplate, ParticlePairFormat, rec, j);
    var F := Encoded(PairTemplate, ParticlePairFormat, rec);
    if j == 62 || j == 114 {
      PairColumnsFree(j);
    } else if j < 62 {
      assert PairTemplate[j] == PairLine1[j];
    } else if j < 114 {
      assert PairTemplate[j] == PairLine2[j - 63];
    } else {
      assert PairTemplate[j] == PairLine3[j - 115];
    }
  }

  /** `_write_particle_pairs` output: the filled text is three newline-free
      lines joined by `"\n "`, and the written text joins the same three
      lines by `"\n"`; the first starts with `Name`, the other two with a
      space and are not blank. */
  lemma PairWritten(rec: Record)
    requires HasFields(ParticlePairFormat, rec) && Fits(ParticlePairFormat, rec)
    requires NoNewlines(ParticlePairFormat, rec)
    ensures var F := Encoded(PairTemplate, ParticlePairFormat, rec);
      |F| == 199
      && F == F[..62] + "\n " + F[64..114] + "\n " + F[116..]
      && ReplaceAll(F, "\n ", "\n") == F[..62] + "\n" + F[64..114] + "\n" + F[116..]
      && '\n' !in F[..62] && '\n' !in F[64..114] && '\n' !in F[116..]
      && F[..4] == "Name" && F[64] == ' ' && F[116] == ' '
      && !IsBlank(F[64..114]) && !IsBlank(F[116..])
  {
    PairFilledShape(rec);
    var F := Encoded(PairTemplate, ParticlePairFormat, rec);
    ReplaceThreeLines(F[..62], F[64..114], F[116..]);
  }

  lemma PairFilledShape(rec: Record)
    requires HasFields(ParticlePairFormat, rec) && Fits(ParticlePairFormat, rec)
    requires NoNewlines(ParticlePairFormat, rec)
    ensures var F := Encoded(PairTemplate, ParticlePairFormat, rec);
      |F| == 199
      && F == F[..62] + "\n " + F[64..114] + "\n " + F[116..]
      && '\n' !in F[..62] && '\n' !in F[64..114] && '\n' !in F[116..]
      && F[..4] == "Name" && F[64] == ' ' && F[116] == ' '
      && !IsBlank(F[64..114]) && !IsBlank(F[116..])
  {
    var F := Encoded(PairTemplate, ParticlePairFormat, rec);
    assert |F| == 199 by { PairFilledColumn(rec, 0); }
    assert forall j: nat | j < 4 || j == 63 || j == 64 || j == 69 || j == 115 || j == 116 || j == 121 :: F[j] == PairTemplate[j] by {
      forall j: nat | j < 4 || j == 63 || j == 64 || j == 69 || j == 115 || j == 116 || j == 121
        ensures F[j] == PairTemplate[j]
      {
        PairColumnsFree(j);
        PairFilledColumn(rec, j);
      }
    }
    assert F[..4] == "Name" && F[63] == ' ' && F[64] == ' ' && F[69] == 'Z' && F[115] == ' ' && F[116] == ' ' && F[121] == 'S' by {
      TemplateShape();
      assert F[..4] == PairTemplate[..4];
    }
    assert forall j | 0 <= j < 199 :: F[j] == '\n' <==> j == 62 || j == 114 by {
      forall j | 0 <= j < 199 ensures F[j] == '\n' <==> j == 62 || j == 114 {
        PairFilledColumn(rec, j);
      }
    }
    ThreeLineShape(F);
  }

  /** A 199-character text with newlines at 62 and 114 only, each followed
      by a space, splits into three newline-free lines. */
  lemma ThreeLineShape(F: string)
    requires |F| == 199 && forall j | 0 <= j < 199 :: F[j] == '\n' <==> j == 62 || j == 114
    requires F[..4] == "Name" && F[64] == ' ' && F[69] == 'Z' && F[116] == ' ' && F[121] == 'S'
    requires F[63] == ' ' && F[115] == ' '
    ensures F == F[..62] + "\n " + F[64..114] + "\n " + F[116..]
    ensures '\n' !in F[..62] && '\n' !in F[64..114] && '\n' !in F[116..]
    ensures !IsBlank(F[64..114]) && !IsBlank(F[116..])
  {
    var A, B, C := F[..62], F[64..114], F[116..];
    assert F == A + "\n " + B + "\n " + C;
    assert B[5] == 'Z' && C[5] == 'S';
  }

  /** Removing the space after each newline of three newline-free lines. */
  lemma ReplaceThreeLines(a: string, b: string, c: string)
    requires '\n' !in a && '\n' !in b && '\n' !in c
    ensures ReplaceAll(a + "\n " + b + "\n " + c, "\n ", "\n") == a + "\n" + b + "\n" + c
  {
    assert a + "\n " + b + "\n " + c == a + "\n " + (b + "\n " + c);
    ReplaceFirstLine(a, b + "\n " + c);
    ReplaceFirstLine(b, c);
    ReplaceAllFree(c, "\n ", "\n");
  }

  lemma ReplaceFirstLine(a: string, rest: string)
    requires '\n' !in a
    ensures ReplaceAll(a + "\n " + rest, "\n ", "\n") == a + "\n" + ReplaceAll(rest, "\n ", "\n")
  {
    assert a + "\n " + rest == a + ("\n " + rest);
    ReplaceAllAfterFree(a, "\n " + rest, "\n ", "\n");
    ReplaceAllAtFront("\n ", rest, "\n");
  }
}
