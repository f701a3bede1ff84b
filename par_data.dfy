/** The parsed content of a parameter file (`ParFile.data`), the section
    parsers that build it from the scanned cards, and the writer that turns
    it back into the lines of a file. */
module ParData {
  import opened Text
  import opened ParFormat
  import opened ChannelRadii
  import opened ParScan

  /** One entry of `data["spin_group"]`: the list whose first record is the
      spin-group card and whose other records are its channel cards. */
  datatype SpinGroup = SpinGroup(info: Record, channels: seq<Record>)

  /** `self.data`: one entry per key, absent (`None`) until its parser has stored it. */
  datatype Data = Data(pairs: Option<seq<Record>>, spin: Option<seq<SpinGroup>>, radii: Option<seq<Radius>>,
                       resonances: Option<seq<Record>>, isotopes: Option<seq<Record>>)

  const NoData := Data(None, None, None, None, None)

  // ---- parsing the cards ----------------------------------------------------

  /** The records `_parse_*_cards` build, one per card. */
  function DecodeAll(reg: Registry, cards: seq<string>): (r: seq<Record>)
    ensures |r| == |cards| && forall k :: 0 <= k < |cards| ==> r[k] == Decode(reg, cards[k])
  {
    seq(|cards|, k requires 0 <= k < |cards| => Decode(reg, cards[k]))
  }

  /** `_parse_particle_pairs_cards`, `_parse_resonance_params_cards` and
      `_parse_isotopic_masses_cards`. */
  method ParseRecordCards(reg: Registry, cards: seq<string>) returns (rs: seq<Record>)
    ensures rs == DecodeAll(reg, cards)
  {
    rs := [];
    for k := 0 to |cards|
      invariant rs == DecodeAll(reg, cards[..k])
    {
      rs := rs + [Decode(reg, cards[k])];
    }
    assert cards[..|cards|] == cards;
  }

  /** `int(rec[key])`: `None` for a missing key or text `int()` refuses. */
  function IntField(rec: Record, key: string): Option<int> {
    if key in rec then ParseInt(rec[key]) else None
  }

  /** `int(n_entrance_channel) + int(n_exit_channel)` of a spin-group record. */
  function ChannelCount(info: Record): Option<int> {
    SumOf(IntField(info, "n_entrance_channel"), IntField(info, "n_exit_channel"))
  }

  /** The sum of two numbers either of which may be missing. */
  function SumOf(a: Option<int>, b: Option<int>): Option<int> {
    match a
    case None => None
    case Some(x) =>
      match b
      case None => None
      case Some(y) => Some(x + y)
  }

  /** The channel records of a group, decoded with `reg`: the next `n` cards
      from `j` (none for a negative `n`), or `None` when fewer remain (`next`
      raises). */
  function ChannelsAt(reg: Registry, cards: seq<string>, j: nat, n: int): Option<seq<Record>> {
    if j + Max(n, 0) > |cards| then None else Some(DecodeAll(reg, cards[j..j + Max(n, 0)]))
  }

  /** The group whose card is card `i`, and the position after its channel
      cards; `None` when its count is not an integer or its channels are missing. */
  function GroupAt(cards: seq<string>, i: nat): (r: Option<(SpinGroup, nat)>)
    requires i < |cards|
    ensures r.Some? ==> i < r.value.1 <= |cards|
  {
    var info := Decode(SpinGroupFormat, cards[i]);
    GroupWith(SpinChannelFormat, cards, i, info, ChannelCount(info))
  }

  /** The group whose header card, at position `i`, decodes to `info` and
      counts `count` channels, with its channel cards decoded by `reg`. */
  function GroupWith(reg: Registry, cards: seq<string>, i: nat, info: Record, count: Option<int>): (r: Option<(SpinGroup, nat)>)
    requires i < |cards|
    ensures r.Some? ==> i < r.value.1 <= |cards|
  {
    match count
    case None => None
    case Some(n) => GroupFrom(info, n, ChannelsAt(reg, cards, i + 1, n), i + 1)
  }

  /** The group of `info` once its channels have been read from position `j`. */
  function GroupFrom(info: Record, n: int, chs: Option<seq<Record>>, j: nat): Option<(SpinGroup, nat)> {
    match chs
    case None => None
    case Some(c) => Some((SpinGroup(info, c), j + Max(n, 0)))
  }

  /** `_parse_spin_group_cards` from card `i` on, with the groups read before
      it in `acc`. */
  function SpinGroupsFrom(cards: seq<string>, i: nat, acc: seq<SpinGroup>): Option<seq<SpinGroup>>
    decreases |cards| - i
  {
    if i >= |cards| then Some(acc)
    else
      match GroupAt(cards, i)
      case None => None
      case Some((g, next)) => SpinGroupsFrom(cards, next, acc + [g])
  }

  function SpinGroups(cards: seq<string>): Option<seq<SpinGroup>> {
    SpinGroupsFrom(cards, 0, [])
  }

  /** The `for n in range(n_channels)` loop: one `next(lines)` per channel. */
  method ReadChannels(cards: seq<string>, j: nat, n: int) returns (r: Option<seq<Record>>)
    requires j <= |cards|
    ensures r == ChannelsAt(SpinChannelFormat, cards, j, n)
  {
    var channels: seq<Record> := [];
    var k := 0;
    while k < n
      invariant 0 <= k <= Max(n, 0) && j + k <= |cards|
      invariant channels == DecodeAll(SpinChannelFormat, cards[j..j + k])
      decreases n - k
    {
      if j + k >= |cards| {
        return None;
      }
      assert cards[j..j + k + 1] == cards[j..j + k] + [cards[j + k]];
      channels := channels + [Decode(SpinChannelFormat, cards[j + k])];
      k := k + 1;
    }
    r := Some(channels);
  }

  /** One pass of the `for line in lines` loop. */
  method ReadGroup(cards: seq<string>, i: nat) returns (r: Option<(SpinGroup, nat)>)
    requires i < |cards|
    ensures r == GroupAt(cards, i)
  {
    var info := Decode(SpinGroupFormat, cards[i]);
    var n := ChannelCount(info);
    if n.None? {
      return None;
    }
    var channels := ReadChannels(cards, i + 1, n.value);
    r := GroupFrom(info, n.value, channels, i + 1);
  }

  method ParseSpinGroupCards(cards: seq<string>) returns (r: Option<seq<SpinGroup>>)
    ensures r == SpinGroups(cards)
  {
    var groups: seq<SpinGroup> := [];
    var i := 0;
    while i < |cards|
      invariant SpinGroupsFrom(cards, i, groups) == SpinGroups(cards)
      decreases |cards| - i
    {
      var g := ReadGroup(cards, i);
      if g.None? {
        return None;
      }
      groups, i := groups + [g.value.0], g.value.1;
    }
    r := Some(groups);
  }

  /** The data `read` stores from the scanned cards, starting from `d`: the
      five parsers run in order and each stores its key, so a parser that
      raises (`false`) leaves the keys stored before it. */
  function ParseCards(d: Data, c: Cards): (Data, bool) {
    var d1 := d.(pairs := Some(DecodeAll(ParticlePairFormat, c.pairs)));
    match SpinGroups(c.spin)
    case None => (d1, false)
    case Some(sg) =>
      var d2 := d1.(spin := Some(sg));
      match ParseRadii(c.radii)
      case None => (d2, false)
      case Some(rs) =>
        var d3 := d2.(radii := Some(rs));
        var d4 := d3.(resonances := Some(DecodeAll(ResonanceFormat, c.resonances)));
        (d4.(isotopes := Some(DecodeAll(IsotopicMassFormat, c.isotopes))), true)
  }

  predicate AllHave(reg: Registry, recs: seq<Record>) {
    forall k :: 0 <= k < |recs| ==> HasFields(reg, recs[k])
  }

  predicate GroupKeyed(g: SpinGroup) {
    HasFields(SpinGroupFormat, g.info) && AllHave(SpinChannelFormat, g.channels)
  }

  /** Every stored record has the fields of its registry, as the decoders
      and the updates below leave them. */
  predicate WellKeyed(d: Data) {
    && (d.pairs.Some? ==> AllHave(ParticlePairFormat, d.pairs.value))
    && (d.spin.Some? ==> GroupsKeyed(d.spin.value))
    && (d.resonances.Some? ==> AllHave(ResonanceFormat, d.resonances.value))
    && (d.isotopes.Some? ==> AllHave(IsotopicMassFormat, d.isotopes.value))
  }

  predicate GroupsKeyed(gs: seq<SpinGroup>) {
    forall k :: 0 <= k < |gs| ==> GroupKeyed(gs[k])
  }

  /** The groups `SpinGroupsFrom` returns are those of `acc` and groups of decoded records. */
  lemma {:induction false} SpinGroupsKeyed(cards: seq<string>, i: nat, acc: seq<SpinGroup>)
    requires GroupsKeyed(acc)
    ensures SpinGroupsFrom(cards, i, acc).Some? ==> GroupsKeyed(SpinGroupsFrom(cards, i, acc).value)
    decreases |cards| - i
  {
    if i < |cards| {
      GroupAtKeyed(cards, i);
      var r := GroupAt(cards, i);
      if r.Some? {
        var acc2 := acc + [r.value.0];
        assert GroupsKeyed(acc2) by {
          forall k | 0 <= k < |acc2| ensures GroupKeyed(acc2[k]) {
            if k < |acc| {
              assert acc2[k] == acc[k];
            }
          }
        }
        SpinGroupsKeyed(cards, r.value.1, acc2);
        assert SpinGroupsFrom(cards, i, acc) == SpinGroupsFrom(cards, r.value.1, acc2);
      }
    }
  }

  lemma DecodeAllKeyed(reg: Registry, cards: seq<string>)
    ensures AllHave(reg, DecodeAll(reg, cards))
  {
    forall k | 0 <= k < |cards| ensures HasFields(reg, DecodeAll(reg, cards)[k]) {
      assert DecodeAll(reg, cards)[k] == Decode(reg, cards[k]);
    }
  }

  lemma GroupAtKeyed(cards: seq<string>, i: nat)
    requires i < |cards|
    ensures GroupAt(cards, i).Some? ==> GroupKeyed(GroupAt(cards, i).value.0)
  {
    var info := Decode(SpinGroupFormat, cards[i]);
    match ChannelCount(info)
    case None =>
    case Some(n) =>
      match ChannelsAt(SpinChannelFormat, cards, i + 1, n)
      case None =>
      case Some(chs) =>
        DecodeAllKeyed(SpinChannelFormat, cards[i + 1..i + 1 + Max(n, 0)]);
        assert GroupKeyed(SpinGroup(info, chs));
  }

  /** Reading keeps every record keyed: decoded records have all their fields. */
  lemma ParseCardsKeyed(d: Data, c: Cards)
    requires WellKeyed(d)
    ensures WellKeyed(ParseCards(d, c).0)
  {
    SpinGroupsKeyed(c.spin, 0, []);
    DecodeAllKeyed(ParticlePairFormat, c.pairs);
    DecodeAllKeyed(ResonanceFormat, c.resonances);
    DecodeAllKeyed(IsotopicMassFormat, c.isotopes);
  }

  // ---- writing ----------------------------------------------------------------

  /** `_write_particle_pairs`: the three-line text of one pair. */
  function PairText(rec: Record): string
    requires HasFields(ParticlePairFormat, rec)
  {
    ReplaceAll(Encoded(PairTemplate, ParticlePairFormat, rec), "\n ", "\n")
  }

  /** The 80-column card of every other record. */
  function CardLine(reg: Registry, rec: Record): string
    requires HasFields(reg, rec)
  {
    Encoded(Blank80, reg, rec)
  }

  function PairLines(ps: seq<Record>): (ls: seq<string>)
    requires AllHave(ParticlePairFormat, ps)
    ensures |ls| == |ps|
  {
    seq(|ps|, k requires 0 <= k < |ps| => PairText(ps[k]))
  }

  function CardLines(reg: Registry, recs: seq<Record>): (ls: seq<string>)
    requires AllHave(reg, recs)
    ensures |ls| == |recs|
  {
    seq(|recs|, k requires 0 <= k < |recs| => CardLine(reg, recs[k]))
  }

  /** The lines of the channels `write` emits for a group, `card[1]` to
      `card[n]`: `None` when there are fewer than `n` (`IndexError`) or one
      lacks a field. */
  function ChannelLines(chs: seq<Record>, n: int): Option<seq<string>> {
    if n > |chs| || !AllHave(SpinChannelFormat, chs[..Max(n, 0)]) then None
    else Some(CardLines(SpinChannelFormat, chs[..Max(n, 0)]))
  }

  /** The lines of one spin group: `None` on a missing field or a count
      `int()` refuses, or when its channels cannot be written. */
  function GroupLines(g: SpinGroup): Option<seq<string>> {
    if !HasFields(SpinGroupFormat, g.info) then None
    else
      match ChannelCount(g.info)
      case None => None
      case Some(n) =>
        match ChannelLines(g.channels, n)
        case None => None
        case Some(cl) => Some([CardLine(SpinGroupFormat, g.info)] + cl)
  }

  /** The lines of the spin-group section. */
  function SpinLines(gs: seq<SpinGroup>): Option<seq<string>> {
    SpinLinesWith(gs, GroupLines)
  }

  /** The lines of the groups `gs`, each group written by `lines`: `None`
      as soon as one group cannot be written. */
  function SpinLinesWith(gs: seq<SpinGroup>, lines: SpinGroup -> Option<seq<string>>): Option<seq<string>>
    decreases |gs|
  {
    if gs == [] then Some([])
    else
      match SpinLinesWith(gs[..|gs| - 1], lines)
      case None => None
      case Some(front) =>
        match lines(gs[|gs| - 1])
        case None => None
        case Some(ls) => Some(front + ls)
  }

  const PairHeader := "PARTICLE PAIR DEFINITIONS"
  const SpinHeader := "SPIN GROUP INFORMATION"
  const ResonanceHeader := "RESONANCE PARAMETERS"
  const RadiiHeader := LJust("Channel radii in key-word format", 80)
  const IsotopeHeader := LJust("ISOTOPIC MASSES AND ABUNDANCES FOLLOW", 80)

  /** The lines `write` assembles before the isotopic block: `None` when
      `data` is empty (`RuntimeError`), a key is missing, or a section raises. */
  function HeadLines(d: Data): Option<seq<string>> {
    if d == NoData || d.pairs.None? || d.spin.None? || d.resonances.None? || d.radii.None? then None
    else if !AllHave(ParticlePairFormat, d.pairs.value) || !AllHave(ResonanceFormat, d.resonances.value) then None
    else
      match SpinLines(d.spin.value)
      case None => None
      case Some(sl) =>
        Some([PairHeader] + PairLines(d.pairs.value) + [" ", SpinHeader] + sl + [" ", ResonanceHeader]
             + CardLines(ResonanceFormat, d.resonances.value) + [Blank80, Blank80, RadiiHeader]
             + AllRadiusLines(d.radii.value) + [Blank80, ""])
  }

  /** The lines of `write` as the source has them: the isotopic block ends
      with an empty line only, so the text ends right after its last card. */
  function WrittenLines(d: Data): Option<seq<string>> {
    match HeadLines(d)
    case None => None
    case Some(head) =>
      if d.isotopes.None? || !AllHave(IsotopicMassFormat, d.isotopes.value) then None
      else if d.isotopes.value == [] then Some(head)
      else Some(head + [IsotopeHeader] + CardLines(IsotopicMassFormat, d.isotopes.value) + [""])
  }

  /** The lines of `write` with the isotopic block closed by a blank card
      like the sections before it, so that `read` finds its end. */
  function FileLinesOf(d: Data): Option<seq<string>> {
    match HeadLines(d)
    case None => None
    case Some(head) =>
      if d.isotopes.None? || !AllHave(IsotopicMassFormat, d.isotopes.value) then None
      else if d.isotopes.value == [] then Some(head)
      else Some(head + [IsotopeHeader] + CardLines(IsotopicMassFormat, d.isotopes.value) + [Blank80, ""])
  }

  /** The text `write` puts in the file. */
  function FileText(lines: seq<string>): string {
    Join("\n", lines)
  }

  // ---- the writing loops --------------------------------------------------

  method WritePairs(ps: seq<Record>) returns (ls: seq<string>)
    requires AllHave(ParticlePairFormat, ps)
    ensures ls == PairLines(ps)
  {
    ls := [];
    for k := 0 to |ps|
      invariant ls == PairLines(ps[..k])
    {
      var text := EncodeParticlePair(ps[k]);
      ls := ls + [text];
    }
    assert ps[..|ps|] == ps;
  }

  method WriteCards(reg: Registry, recs: seq<Record>) returns (ls: seq<string>)
    requires AllHave(reg, recs)
    ensures ls == CardLines(reg, recs)
  {
    ls := [];
    for k := 0 to |recs|
      invariant ls == CardLines(reg, recs[..k])
    {
      var line := EncodeRecord(Blank80, reg, recs[k]);
      ls := ls + [line];
    }
    assert recs[..|recs|] == recs;
  }

  /** The `for channel in range(1, n_channels + 1)` loop. */
  method WriteChannels(chs: seq<Record>, n: int) returns (r: Option<seq<string>>)
    ensures r == ChannelLines(chs, n)
  {
    var ls := [];
    var channel := 1;
    while channel <= n
      invariant 1 <= channel <= Max(n, 0) + 1 && channel - 1 <= |chs|
      invariant AllHave(SpinChannelFormat, chs[..channel - 1])
      invariant ls == CardLines(SpinChannelFormat, chs[..channel - 1])
      decreases n - channel
    {
      if channel > |chs| || !HasFields(SpinChannelFormat, chs[channel - 1]) {
        assert n > |chs| || !AllHave(SpinChannelFormat, chs[..Max(n, 0)]) by {
          if n <= |chs| {
            assert chs[..Max(n, 0)][channel - 1] == chs[channel - 1];
          }
        }
        return None;
      }
      var line := EncodeRecord(Blank80, SpinChannelFormat, chs[channel - 1]);
      assert chs[..channel] == chs[..channel - 1] + [chs[channel - 1]];
      ls := ls + [line];
      channel := channel + 1;
    }
    r := Some(ls);
  }

  /** One group of the `for card in self.data["spin_group"]` loop. */
  method WriteGroup(g: SpinGroup) returns (r: Option<seq<string>>)
    ensures r == GroupLines(g)
  {
    if !HasFields(SpinGroupFormat, g.info) {
      return None;
    }
    var head := EncodeRecord(Blank80, SpinGroupFormat, g.info);
    var n := ChannelCount(g.info);
    if n.None? {
      return None;
    }
    var cl := WriteChannels(g.channels, n.value);
    if cl.None? {
      return None;
    }
    r := Some([head] + cl.value);
  }

  method WriteSpinGroups(gs: seq<SpinGroup>) returns (r: Option<seq<string>>)
    ensures r == SpinLines(gs)
  {
    var ls := [];
    for k := 0 to |gs|
      invariant SpinLines(gs[..k]) == Some(ls)
    {
      var g := WriteGroup(gs[k]);
      assert gs[..k + 1][..k] == gs[..k];
      if g.None? {
        assert SpinLines(gs[..k + 1]) == None;
        SpinLinesFailed(gs, k + 1);
        return None;
      }
      ls := ls + g.value;
    }
    assert gs[..|gs|] == gs;
    r := Some(ls);
  }

  /** A group that cannot be written makes every longer list unwritable. */
  lemma {:induction false} SpinLinesFailed(gs: seq<SpinGroup>, k: nat)
    requires k <= |gs| && SpinLines(gs[..k]) == None
    ensures SpinLines(gs) == None
  {
    LinesWithFailed(gs, k, GroupLines);
  }

  lemma {:induction false} LinesWithFailed(gs: seq<SpinGroup>, k: nat, lines: SpinGroup -> Option<seq<string>>)
    requires k <= |gs| && SpinLinesWith(gs[..k], lines) == None
    ensures SpinLinesWith(gs, lines) == None
    decreases |gs| - k
  {
    if k < |gs| {
      assert gs[..k + 1][..k] == gs[..k];
      LinesWithFailed(gs, k + 1, lines);
    } else {
      assert gs[..k] == gs;
    }
  }

  method WriteRadii(rs: seq<Radius>) returns (ls: seq<string>)
    ensures ls == AllRadiusLines(rs)
  {
    ls := [];
    for k := 0 to |rs|
      invariant ls == AllRadiusLines(rs[..k])
    {
      var cards := WriteChannelRadii(rs[k]);
      assert rs[..k + 1] == rs[..k] + [rs[k]];
      AllRadiusLinesSnoc(rs[..k], rs[k]);
      ls := ls + cards;
    }
    assert rs[..|rs|] == rs;
  }

  /** `write`, up to the text it hands to the file: the lines, or `None` where it raises. */
  method WriteLines(d: Data) returns (r: Option<seq<string>>)
    ensures r == WrittenLines(d)
  {
    if d == NoData || d.pairs.None? || d.spin.None? || d.resonances.None? || d.radii.None? {
      return None;
    }
    if !AllHave(ParticlePairFormat, d.pairs.value) || !AllHave(ResonanceFormat, d.resonances.value) {
      return None;
    }
    var lines := [PairHeader];
    var pairs := WritePairs(d.pairs.value);
    lines := lines + pairs + [" ", SpinHeader];
    var spin := WriteSpinGroups(d.spin.value);
    if spin.None? {
      return None;
    }
    lines := lines + spin.value + [" ", ResonanceHeader];
    var res := WriteCards(ResonanceFormat, d.resonances.value);
    lines := lines + res + [Blank80, Blank80, RadiiHeader];
    var radii := WriteRadii(d.radii.value);
    lines := lines + radii + [Blank80, ""];
    assert HeadLines(d) == Some(lines);
    if d.isotopes.None? || !AllHave(IsotopicMassFormat, d.isotopes.value) {
      return None;
    }
    if d.isotopes.value != [] {
      var iso := WriteCards(IsotopicMassFormat, d.isotopes.value);
      lines := lines + [IsotopeHeader] + iso + [""];
    }
    r := Some(lines);
  }
}
