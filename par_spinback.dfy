/** The spin-group section read back: `_parse_spin_group_cards` splits its
    cards into groups of a header card and exactly as many channel cards as
    the header counts, `write` emits those cards again, and the groups read
    from written cards write the same cards. */
module ParSpinBack {
  import opened Text
  import opened ParFormat
  import opened ParData

  // ---- a card read back from its written line -------------------------------

  /** A record written as a card line that `read` keeps whole: every value
      fits its columns, none holds a newline, and the line is not blank (a
      blank line would end the section). */
  predicate CardOk(reg: Registry, rec: Record) {
    HasFields(reg, rec) && Fits(reg, rec) && NoNewlines(reg, rec) && !IsBlank(CardLine(reg, rec))
  }

  /** The record `read` gets back from the written card of `rec`. */
  function CardReadBack(reg: Registry, rec: Record): (r: Record)
    requires HasFields(reg, rec)
    ensures HasFields(reg, r)
  {
    Decode(reg, CardLine(reg, rec))
  }

  /** A field whose columns no other field writes reads back as its value
      left-justified to its width. */
  lemma {:induction false} FieldReadBack(base: string, reg: Registry, rec: Record, k: nat)
    requires WithinWidth(reg, |base|) && DistinctNames(reg) && HasFields(reg, rec) && Fits(reg, rec) && k < |reg|
    requires forall j :: reg[k].start <= j < reg[k].stop ==> Owner(reg, j) == Some(k)
    ensures Decode(reg, Encoded(base, reg, rec))[reg[k].name] == LJust(rec[reg[k].name], Width(reg[k]))
  {
    var line := Encoded(base, reg, rec);
    var f := reg[k];
    EncodedLength(base, reg, rec);
    DecodeValue(reg, line, k);
    var s := line[f.start..f.stop];
    assert Slice(line, f.start, f.stop) == s;
    var v := LJust(rec[f.name], Width(f));
    assert |v| == Width(f) == |s|;
    forall i | 0 <= i < Width(f) ensures s[i] == v[i] {
      ColumnReadBack(base, reg, rec, k, i);
    }
  }

  lemma {:induction false} ColumnReadBack(base: string, reg: Registry, rec: Record, k: nat, i: nat)
    requires WithinWidth(reg, |base|) && HasFields(reg, rec) && Fits(reg, rec) && k < |reg|
    requires i < Width(reg[k]) && Owner(reg, reg[k].start + i) == Some(k)
    ensures |Encoded(base, reg, rec)| == |base|
    ensures Encoded(base, reg, rec)[reg[k].start + i] == LJust(rec[reg[k].name], Width(reg[k]))[i]
  {
    OwnedColumn(base, reg, rec, k, reg[k].start + i);
    FieldCharIsLJust(rec, reg[k], i);
  }

  lemma {:induction false} OwnedColumn(base: string, reg: Registry, rec: Record, k: nat, j: nat)
    requires WithinWidth(reg, |base|) && HasFields(reg, rec) && Fits(reg, rec) && k < |reg|
    requires j < |base| && Owner(reg, j) == Some(k)
    ensures |Encoded(base, reg, rec)| == |base|
    ensures Encoded(base, reg, rec)[j] == FieldChar(rec, reg[k], j)
  {
    EncodedAt(base, reg, rec, j);
  }

  lemma {:induction false} FieldCharIsLJust(rec: Record, f: Field, i: nat)
    requires f.name in rec && i < Width(f)
    ensures FieldChar(rec, f, f.start + i) == LJust(rec[f.name], Width(f))[i]
  {
    LJustAt(rec[f.name], Width(f), i);
  }

  /** The two count columns of a spin-group card belong to their fields alone. */
  lemma {:induction false} CountColumnsOwned()
    ensures forall j :: 7 <= j < 10 ==> Owner(SpinGroupFormat, j) == Some(2)
    ensures forall j :: 12 <= j < 15 ==> Owner(SpinGroupFormat, j) == Some(3)
  {
    forall j | 7 <= j < 10 ensures Owner(SpinGroupFormat, j) == Some(2) {
      OwnerIsLast(SpinGroupFormat, j);
      assert Covers(SpinGroupFormat[2], j);
    }
    forall j | 12 <= j < 15 ensures Owner(SpinGroupFormat, j) == Some(3) {
      OwnerIsLast(SpinGroupFormat, j);
      assert Covers(SpinGroupFormat[3], j);
    }
  }

  /** `int()` reads a left-justified number like the number itself. */
  lemma {:induction false} ParseIntLJust(s: string, w: int)
    ensures ParseInt(LJust(s, w)) == ParseInt(s)
  {
    var pad := Spaces(Max(|s|, w) - |s|);
    LJustPads(s, w);
    assert "" + s == s;
    ParseIntPadded("", s, pad);
  }

  /** An integer column of a spin-group card that no other field writes
      reads back as the same integer. */
  lemma {:induction false} IntFieldReadBack(info: Record, k: nat, name: string)
    requires HasFields(SpinGroupFormat, info) && Fits(SpinGroupFormat, info)
    requires k < |SpinGroupFormat| && SpinGroupFormat[k].name == name
    requires forall j :: SpinGroupFormat[k].start <= j < SpinGroupFormat[k].stop ==> Owner(SpinGroupFormat, j) == Some(k)
    ensures IntField(CardReadBack(SpinGroupFormat, info), name) == IntField(info, name)
  {
    SpinGroupNamesDistinct();
    FieldReadBack(Blank80, SpinGroupFormat, info, k);
    ParseIntLJust(info[name], Width(SpinGroupFormat[k]));
  }

  lemma {:induction false} ChannelCountSame(a: Record, b: Record)
    requires IntField(a, "n_entrance_channel") == IntField(b, "n_entrance_channel")
    requires IntField(a, "n_exit_channel") == IntField(b, "n_exit_channel")
    ensures ChannelCount(a) == ChannelCount(b)
  {
  }

  /** A spin-group card read back counts the same channels. */
  lemma {:induction false} CountReadBack(info: Record)
    requires HasFields(SpinGroupFormat, info) && Fits(SpinGroupFormat, info)
    ensures ChannelCount(CardReadBack(SpinGroupFormat, info)) == ChannelCount(info)
  {
    CountColumnsOwned();
    IntFieldReadBack(info, 2, "n_entrance_channel");
    IntFieldReadBack(info, 3, "n_exit_channel");
    ChannelCountSame(CardReadBack(SpinGroupFormat, info), info);
  }

  /** A written card read back writes the same card. */
  lemma {:induction false} CardWritesBack(reg: Registry, rec: Record)
    requires WithinWidth(reg, 80) && DistinctNames(reg) && HasFields(reg, rec) && Fits(reg, rec)
    ensures CardLine(reg, CardReadBack(reg, rec)) == CardLine(reg, rec)
  {
    EncodeIdempotent(Blank80, reg, rec);
  }

  /** A card written from values without newlines has none. */
  lemma {:induction false} CardLineNewlineFree(reg: Registry, rec: Record)
    requires WithinWidth(reg, 80) && HasFields(reg, rec) && Fits(reg, rec) && NoNewlines(reg, rec)
    ensures |CardLine(reg, rec)| == 80 && '\n' !in CardLine(reg, rec)
  {
    var line := CardLine(reg, rec);
    EncodedLength(Blank80, reg, rec);
    forall j | 0 <= j < 80 ensures line[j] != '\n' {
      ColumnNotNewline(reg, rec, j);
    }
  }

  lemma {:induction false} ColumnNotNewline(reg: Registry, rec: Record, j: nat)
    requires WithinWidth(reg, 80) && HasFields(reg, rec) && Fits(reg, rec) && NoNewlines(reg, rec) && j < 80
    ensures |CardLine(reg, rec)| == 80 && CardLine(reg, rec)[j] != '\n'
  {
    EncodedAt(Blank80, reg, rec, j);
    match Owner(reg, j)
    case None =>
    case Some(k) =>
      var v := rec[reg[k].name];
      if j - reg[k].start < |v| {
        assert v[j - reg[k].start] in v;
      }
  }

  // ---- a run of cards -------------------------------------------------------

  predicate CardsOk(reg: Registry, recs: seq<Record>) {
    forall k :: 0 <= k < |recs| ==> CardOk(reg, recs[k])
  }

  /** The records `read` gets back from the written cards of `recs`. */
  function ReadBackAll(reg: Registry, recs: seq<Record>): (r: seq<Record>)
    requires AllHave(reg, recs)
    ensures |r| == |recs| && AllHave(reg, r)
  {
    seq(|recs|, k requires 0 <= k < |recs| => CardReadBack(reg, recs[k]))
  }

  /** Decoding written cards gives the records read back. */
  lemma {:induction false} CardLinesReadBack(reg: Registry, cards: seq<string>, recs: seq<Record>)
    requires AllHave(reg, recs) && cards == CardLines(reg, recs)
    ensures DecodeAll(reg, cards) == ReadBackAll(reg, recs)
  {
  }

  /** Written cards of good records are 80 columns, newline-free and not blank. */
  lemma {:induction false} CardLinesShape(reg: Registry, recs: seq<Record>)
    requires WithinWidth(reg, 80) && CardsOk(reg, recs)
    ensures forall k :: 0 <= k < |recs| ==> |CardLines(reg, recs)[k]| == 80 && '\n' !in CardLines(reg, recs)[k] && !IsBlank(CardLines(reg, recs)[k])
  {
    forall k | 0 <= k < |recs| ensures |CardLines(reg, recs)[k]| == 80 && '\n' !in CardLines(reg, recs)[k] {
      CardLineNewlineFree(reg, recs[k]);
    }
  }

  /** Records read back write the same cards. */
  lemma {:induction false} CardLinesWriteBack(reg: Registry, recs: seq<Record>)
    requires WithinWidth(reg, 80) && DistinctNames(reg) && CardsOk(reg, recs)
    ensures CardLines(reg, ReadBackAll(reg, recs)) == CardLines(reg, recs)
  {
    forall k | 0 <= k < |recs| ensures CardLine(reg, ReadBackAll(reg, recs)[k]) == CardLine(reg, recs[k]) {
      CardWritesBack(reg, recs[k]);
    }
  }

  /** A run of lines `[h] + t` found at position `i`. */
  lemma {:induction false} RunAt(cards: seq<string>, i: nat, h: string, t: seq<string>, m: nat)
    requires |t| == m && i + 1 + m <= |cards| && cards[i..i + 1 + m] == [h] + t
    ensures cards[i] == h && cards[i + 1..i + 1 + m] == t
  {
    assert cards[i] == cards[i..i + 1 + m][0];
    forall k | 0 <= k < m ensures cards[i + 1..i + 1 + m][k] == t[k] {
      assert cards[i + 1..i + 1 + m][k] == cards[i..i + 1 + m][k + 1];
    }
  }

  // ---- one group ------------------------------------------------------------

  /** The number of channel cards `write` emits for a group whose count parses. */
  function Emitted(g: SpinGroup): nat
    requires ChannelCount(g.info).Some?
  {
    Max(ChannelCount(g.info).value, 0)
  }

  /** A group `write` emits and `read` keeps whole: its header card and the
      channel cards it counts are all `CardOk`, and there are enough channels. */
  predicate GroupOk(g: SpinGroup) {
    GroupWritable(g) && CardOk(SpinGroupFormat, g.info) && CardsOk(SpinChannelFormat, g.channels[..Emitted(g)])
  }

  /** A group whose cards `write` can emit: its header has every field, each
      fitting its columns, its count parses and there are enough channels,
      each with every field. */
  predicate GroupWritable(g: SpinGroup) {
    && HasFields(SpinGroupFormat, g.info) && Fits(SpinGroupFormat, g.info) && ChannelCount(g.info).Some?
    && Emitted(g) <= |g.channels| && AllHave(SpinChannelFormat, g.channels[..Emitted(g)])
  }

  /** The group `read` gets back from the written cards of `g`: the header
      and the counted channels, each read back from its card. */
  function GroupReadBack(g: SpinGroup): (r: SpinGroup)
    requires GroupOk(g)
    ensures |r.channels| == Emitted(g)
  {
    SpinGroup(CardReadBack(SpinGroupFormat, g.info), ReadBackAll(SpinChannelFormat, g.channels[..Emitted(g)]))
  }

  /** The lines `write` emits for a good group. */
  lemma {:induction false} GroupLinesOk(g: SpinGroup)
    requires GroupOk(g)
    ensures GroupLines(g) == Some([CardLine(SpinGroupFormat, g.info)] + CardLines(SpinChannelFormat, g.channels[..Emitted(g)]))
  {
  }

  lemma {:induction false} SpinGroupWidth()
    ensures WithinWidth(SpinGroupFormat, 80) && WithinWidth(SpinChannelFormat, 80)
    ensures DistinctNames(SpinGroupFormat) && DistinctNames(SpinChannelFormat)
  {
    SpinGroupNamesDistinct();
    SpinChannelNamesDistinct();
  }

  /** Every line of a good group is an 80-column card without newline, not blank. */
  lemma {:induction false} GroupLinesShape(g: SpinGroup)
    requires GroupOk(g)
    ensures GroupLines(g).Some?
    ensures var ls := GroupLines(g).value;
      |ls| == 1 + Emitted(g) && forall k :: 0 <= k < |ls| ==> '\n' !in ls[k] && !IsBlank(ls[k])
  {
    GroupLinesOk(g);
    SpinGroupWidth();
    var h := CardLine(SpinGroupFormat, g.info);
    var t := CardLines(SpinChannelFormat, g.channels[..Emitted(g)]);
    CardLineNewlineFree(SpinGroupFormat, g.info);
    CardLinesShape(SpinChannelFormat, g.channels[..Emitted(g)]);
    LinesShape(h, t);
  }

  lemma {:induction false} LinesShape(h: string, t: seq<string>)
    requires '\n' !in h && !IsBlank(h)
    requires forall k :: 0 <= k < |t| ==> '\n' !in t[k] && !IsBlank(t[k])
    ensures forall k :: 0 <= k < |[h] + t| ==> '\n' !in ([h] + t)[k] && !IsBlank(([h] + t)[k])
  {
    forall k | 0 <= k < |[h] + t| ensures '\n' !in ([h] + t)[k] && !IsBlank(([h] + t)[k]) {
      if k > 0 {
        assert ([h] + t)[k] == t[k - 1];
      }
    }
  }

  /** The read-back group writes the same lines. */
  lemma {:induction false} GroupReadBackLines(g: SpinGroup)
    requires GroupOk(g)
    ensures GroupOk(GroupReadBack(g)) ==> GroupLines(GroupReadBack(g)) == GroupLines(g)
  {
    var b := GroupReadBack(g);
    var m := Emitted(g);
    var chs := g.channels[..m];
    SpinGroupWidth();
    CountReadBack(g.info);
    CardWritesBack(SpinGroupFormat, g.info);
    GroupLinesOk(g);
    CardLinesWriteBack(SpinChannelFormat, chs);
    assert b.channels[..m] == b.channels;
    if GroupOk(b) {
      GroupLinesOk(b);
    }
  }

  /** The parser reads a good group's written lines, found at card `i`,
      back as `GroupReadBack(g)` and goes on after them. */
  lemma {:induction false} GroupAtWritten(cards: seq<string>, i: nat, g: SpinGroup, n: int, m: nat)
    requires GroupOk(g) && ChannelCount(g.info) == Some(n) && m == Max(n, 0) && i + 1 + m <= |cards|
    requires cards[i..i + 1 + m] == [CardLine(SpinGroupFormat, g.info)] + CardLines(SpinChannelFormat, g.channels[..m])
    ensures GroupAt(cards, i) == Some((GroupReadBack(g), i + 1 + m))
  {
    GroupAtCards(cards, i, g.info, g.channels[..m], n, m);
  }

  /** The written cards of a header `info` counting `n` channels and of the
      `m` channels `chans`, found at card `i`, are read back as one group. */
  lemma {:induction false} GroupAtCards(cards: seq<string>, i: nat, info: Record, chans: seq<Record>, n: int, m: nat)
    requires HasFields(SpinGroupFormat, info) && Fits(SpinGroupFormat, info) && ChannelCount(info) == Some(n)
    requires AllHave(SpinChannelFormat, chans) && |chans| == m == Max(n, 0) && i + 1 + m <= |cards|
    requires cards[i..i + 1 + m] == [CardLine(SpinGroupFormat, info)] + CardLines(SpinChannelFormat, chans)
    ensures GroupAt(cards, i) == Some((SpinGroup(CardReadBack(SpinGroupFormat, info), ReadBackAll(SpinChannelFormat, chans)), i + 1 + m))
  {
    RunAt(cards, i, CardLine(SpinGroupFormat, info), CardLines(SpinChannelFormat, chans), m);
    CountReadBack(info);
    GroupAtCount(cards, i, n);
    GroupWithCards(SpinGroupFormat, SpinChannelFormat, cards, i, info, chans, n, m);
  }

  lemma {:induction false} GroupAtCount(cards: seq<string>, i: nat, n: int)
    requires i < |cards| && ChannelCount(Decode(SpinGroupFormat, cards[i])) == Some(n)
    ensures GroupAt(cards, i) == GroupWith(SpinChannelFormat, cards, i, Decode(SpinGroupFormat, cards[i]), Some(n))
  {
  }

  /** The cards of a header `info` counting `n` channels and of the channels
      `chans`, written with the registries `greg` and `creg` and found at card
      `i`, are read back as one group. */
  lemma {:induction false} GroupWithCards(greg: Registry, creg: Registry, cards: seq<string>, i: nat, info: Record, chans: seq<Record>, n: int, m: nat)
    requires HasFields(greg, info) && AllHave(creg, chans) && |chans| == m == Max(n, 0) && i + 1 + m <= |cards|
    requires cards[i..i + 1 + m] == [CardLine(greg, info)] + CardLines(creg, chans)
    ensures GroupWith(creg, cards, i, Decode(greg, cards[i]), Some(n))
         == Some((SpinGroup(CardReadBack(greg, info), ReadBackAll(creg, chans)), i + 1 + m))
  {
    RunAt(cards, i, CardLine(greg, info), CardLines(creg, chans), m);
    ChannelsAtWritten(creg, cards, i + 1, n, chans, m);
  }

  /** Written cards found at `j` are the channels `ChannelsAt` reads back. */
  lemma {:induction false} ChannelsAtWritten(reg: Registry, cards: seq<string>, j: nat, n: int, recs: seq<Record>, m: nat)
    requires AllHave(reg, recs) && |recs| == m == Max(n, 0) && j + m <= |cards|
    requires cards[j..j + m] == CardLines(reg, recs)
    ensures ChannelsAt(reg, cards, j, n) == Some(ReadBackAll(reg, recs))
  {
    CardLinesReadBack(reg, cards[j..j + m], recs);
  }


  // ---- a card read back is as good as the card written --------------------------

  /** The record read back from a good card is a good card again. */
  lemma {:induction false} CardReadBackOk(reg: Registry, rec: Record)
    requires WithinWidth(reg, 80) && DistinctNames(reg) && CardOk(reg, rec)
    ensures CardOk(reg, CardReadBack(reg, rec))
  {
    var line := CardLine(reg, rec);
    CardLineNewlineFree(reg, rec);
    DecodeFits(reg, line);
    LineColumnsNewlineFree(reg, line);
    CardWritesBack(reg, rec);
  }

  /** The columns cut from a line without newline hold no newline. */
  lemma {:induction false} LineColumnsNewlineFree(reg: Registry, line: string)
    requires WithinWidth(reg, |line|) && DistinctNames(reg) && '\n' !in line
    ensures NoNewlines(reg, Decode(reg, line))
  {
    DecodeFits(reg, line);
    forall k | 0 <= k < |reg| ensures '\n' !in Decode(reg, line)[reg[k].name] {
      var v := line[reg[k].start..reg[k].stop];
      forall i | 0 <= i < |v| ensures v[i] != '\n' {
        assert v[i] == line[reg[k].start + i];
      }
    }
  }

  lemma {:induction false} CardsReadBackOk(reg: Registry, recs: seq<Record>)
    requires WithinWidth(reg, 80) && DistinctNames(reg) && CardsOk(reg, recs)
    ensures CardsOk(reg, ReadBackAll(reg, recs))
  {
    forall k | 0 <= k < |recs| ensures CardOk(reg, ReadBackAll(reg, recs)[k]) {
      CardReadBackOk(reg, recs[k]);
    }
  }

  /** A group read back from its written lines is a good group, with exactly
      the channels written. */
  lemma {:induction false} GroupReadBackOk(g: SpinGroup)
    requires GroupOk(g)
    ensures GroupOk(GroupReadBack(g)) && Emitted(GroupReadBack(g)) == Emitted(g)
    ensures |GroupReadBack(g).channels| == Emitted(g)
  {
    var b := GroupReadBack(g);
    SpinGroupWidth();
    CountReadBack(g.info);
    CardReadBackOk(SpinGroupFormat, g.info);
    CardsReadBackOk(SpinChannelFormat, g.channels[..Emitted(g)]);
    assert b.channels[..Emitted(b)] == b.channels;
  }

  // ---- the whole section ---------------------------------------------------------

  predicate GroupsOk(gs: seq<SpinGroup>) {
    forall k :: 0 <= k < |gs| ==> GroupOk(gs[k])
  }

  /** The groups `read` gets back from the written spin-group section. */
  function GroupsReadBack(gs: seq<SpinGroup>): (r: seq<SpinGroup>)
    requires GroupsOk(gs)
    ensures |r| == |gs|
  {
    seq(|gs|, k requires 0 <= k < |gs| => GroupReadBack(gs[k]))
  }

  lemma {:induction false} LinesWithAppend(a: seq<SpinGroup>, b: seq<SpinGroup>, lines: SpinGroup -> Option<seq<string>>)
    requires SpinLinesWith(a, lines).Some? && SpinLinesWith(b, lines).Some?
    ensures SpinLinesWith(a + b, lines) == Some(SpinLinesWith(a, lines).value + SpinLinesWith(b, lines).value)
    decreases |b|
  {
    if b == [] {
      assert a + b == a;
      assert SpinLinesWith(b, lines) == Some([]);
      assert SpinLinesWith(a, lines).value + [] == SpinLinesWith(a, lines).value;
    } else {
      var b1 := b[..|b| - 1];
      var last := b[|b| - 1];
      assert SpinLinesWith(b1, lines).Some? && lines(last).Some?;
      assert SpinLinesWith(b, lines).value == SpinLinesWith(b1, lines).value + lines(last).value;
      assert (a + b)[..|a + b| - 1] == a + b1;
      assert (a + b)[|a + b| - 1] == last;
      LinesWithAppend(a, b1, lines);
      var A, B1, L := SpinLinesWith(a, lines).value, SpinLinesWith(b1, lines).value, lines(last).value;
      assert SpinLinesWith(a + b, lines) == Some(SpinLinesWith(a + b1, lines).value + L);
      assert (A + B1) + L == A + (B1 + L);
    }
  }

  /** Groups that can each be written can all be written. */
  lemma {:induction false} LinesWithOk(gs: seq<SpinGroup>, lines: SpinGroup -> Option<seq<string>>)
    requires forall k :: 0 <= k < |gs| ==> lines(gs[k]).Some?
    ensures SpinLinesWith(gs, lines).Some?
    decreases |gs|
  {
    if gs != [] {
      var front := gs[..|gs| - 1];
      assert forall k :: 0 <= k < |front| ==> front[k] == gs[k];
      LinesWithOk(front, lines);
    }
  }

  /** The lines of a run of groups start with those of its first group. */
  lemma {:induction false} LinesWithCons(gs: seq<SpinGroup>, lines: SpinGroup -> Option<seq<string>>)
    requires gs != [] && forall k :: 0 <= k < |gs| ==> lines(gs[k]).Some?
    ensures SpinLinesWith(gs[1..], lines).Some?
    ensures SpinLinesWith(gs, lines) == Some(lines(gs[0]).value + SpinLinesWith(gs[1..], lines).value)
  {
    var rest := gs[1..];
    assert forall k :: 0 <= k < |rest| ==> rest[k] == gs[k + 1];
    LinesWithOk(rest, lines);
    var one := [gs[0]];
    assert one[..0] == [];
    assert SpinLinesWith(one[..0], lines) == Some([]);
    assert SpinLinesWith(one, lines) == Some(lines(gs[0]).value) by {
      assert one[0] == gs[0];
      assert [] + lines(gs[0]).value == lines(gs[0]).value;
    }
    LinesWithAppend(one, rest, lines);
    assert one + rest == gs;
    assert SpinLinesWith(gs, lines) == SpinLinesWith(one + rest, lines);
  }

  /** Runs of groups written alike, group by group, are written alike. */
  lemma {:induction false} LinesWithSame(xs: seq<SpinGroup>, ys: seq<SpinGroup>, lines: SpinGroup -> Option<seq<string>>)
    requires |xs| == |ys| && forall k :: 0 <= k < |xs| ==> lines(xs[k]) == lines(ys[k])
    ensures SpinLinesWith(xs, lines) == SpinLinesWith(ys, lines)
    decreases |xs|
  {
    if xs != [] {
      var fx, fy := xs[..|xs| - 1], ys[..|ys| - 1];
      assert forall k :: 0 <= k < |fx| ==> fx[k] == xs[k] && fy[k] == ys[k];
      LinesWithSame(fx, fy, lines);
    }
  }

  /** Good groups can all be written. */
  lemma {:induction false} SpinLinesOk(gs: seq<SpinGroup>)
    requires GroupsOk(gs)
    ensures SpinLines(gs).Some?
  {
    forall k | 0 <= k < |gs| ensures GroupLines(gs[k]).Some? {
      GroupLinesShape(gs[k]);
    }
    LinesWithOk(gs, GroupLines);
  }

  /** One step of `_parse_spin_group_cards`: a group read at card `i` ending
      before card `j` leaves the rest of the parse to start at `j`. */
  lemma {:induction false} SpinGroupsFromStep(cards: seq<string>, i: nat, j: nat, x: SpinGroup, acc: seq<SpinGroup>)
    requires i < |cards| && GroupAt(cards, i) == Some((x, j))
    ensures SpinGroupsFrom(cards, i, acc) == SpinGroupsFrom(cards, j, acc + [x])
  {
  }

  /** The written lines of a run of groups begin with those of the first. */
  lemma {:induction false} LinesWithHead(cards: seq<string>, i: nat, gs: seq<SpinGroup>, lines: SpinGroup -> Option<seq<string>>)
    requires gs != [] && (forall k :: 0 <= k < |gs| ==> lines(gs[k]).Some?) && i <= |cards|
    requires SpinLinesWith(gs, lines).Some? && cards[i..] == SpinLinesWith(gs, lines).value
    ensures SpinLinesWith(gs[1..], lines).Some?
    ensures i + |lines(gs[0]).value| <= |cards|
    ensures cards[i..i + |lines(gs[0]).value|] == lines(gs[0]).value
    ensures cards[i + |lines(gs[0]).value|..] == SpinLinesWith(gs[1..], lines).value
  {
    LinesWithCons(gs, lines);
    var h := lines(gs[0]).value;
    assert cards[i..i + |h|] == cards[i..][..|h|];
    assert cards[i + |h|..] == cards[i..][|h|..];
  }

  /** Every group of the run can be written by `lines`. */
  predicate LinesOk(gs: seq<SpinGroup>, lines: SpinGroup -> Option<seq<string>>) {
    forall k :: 0 <= k < |gs| ==> lines(gs[k]).Some?
  }

  /** Where the lines of each group start when the run is written from
      position `base` on; the last entry is where the run ends. */
  function Offsets(gs: seq<SpinGroup>, lines: SpinGroup -> Option<seq<string>>, base: nat): (o: seq<nat>)
    requires LinesOk(gs, lines)
    ensures |o| == |gs| + 1 && o[0] == base
    decreases |gs|
  {
    if gs == [] then [base]
    else
      assert LinesOk(gs[1..], lines) by {
        forall k | 0 <= k < |gs| - 1 ensures lines(gs[1..][k]).Some? {
          assert gs[1..][k] == gs[k + 1];
        }
      }
      [base] + Offsets(gs[1..], lines, base + |lines(gs[0]).value|)
  }

  /** Reading one group at a position: the group found there and the
      position where reading goes on. */
  type Reader = nat -> Option<(SpinGroup, nat)>

  /** `GroupAt` over `cards`, finding nothing past their end. */
  function CardReader(cards: seq<string>): Reader {
    (p: nat) => if p < |cards| then GroupAt(cards, p) else None
  }

  /** `at` reads a group at each position of `pos`, ending at the next one,
      and the last position is `end`. */
  predicate StepsAt(at: Reader, end: nat, pos: seq<nat>, xs: seq<SpinGroup>)
    decreases |xs|
  {
    && |pos| == |xs| + 1
    && (xs == [] ==> pos[0] == end)
    && (xs != [] ==> at(pos[0]) == Some((xs[0], pos[1])) && StepsAt(at, end, pos[1..], xs[1..]))
  }

  /** `_parse_spin_group_cards` run over cards read in such steps reads
      exactly `xs`. */
  lemma {:induction false} SpinGroupsFromSteps(cards: seq<string>, pos: seq<nat>, xs: seq<SpinGroup>, acc: seq<SpinGroup>)
    requires StepsAt(CardReader(cards), |cards|, pos, xs)
    ensures SpinGroupsFrom(cards, pos[0], acc) == Some(acc + xs)
    decreases |xs|
  {
    if xs == [] {
      assert acc + xs == acc;
    } else {
      assert CardReader(cards)(pos[0]) == Some((xs[0], pos[1]));
      SpinGroupsFromStep(cards, pos[0], pos[1], xs[0], acc);
      assert pos[1..][0] == pos[1];
      SpinGroupsFromSteps(cards, pos[1..], xs[1..], acc + [xs[0]]);
      assert acc + [xs[0]] + xs[1..] == acc + xs;
    }
  }

  /** The positions at which `_parse_spin_group_cards` reads a header card
      from card `i` on, then the position where it stops. */
  function Starts(cards: seq<string>, i: nat): (o: seq<nat>)
    ensures o != [] && o[0] == i
    decreases |cards| - i
  {
    if i >= |cards| then [i]
    else
      match GroupAt(cards, i)
      case None => [i]
      case Some((_, next)) => [i] + Starts(cards, next)
  }

  /** A group read at card `p` and ending at `q` is the header card at `p`
      and exactly the channel cards it counts after it. */
  lemma {:induction false} GroupAtSplits(cards: seq<string>, p: nat, g: SpinGroup, q: nat)
    requires p < |cards| && GroupAt(cards, p) == Some((g, q))
    ensures g.info == Decode(SpinGroupFormat, cards[p]) && ChannelCount(g.info).Some?
    ensures q == p + 1 + Max(ChannelCount(g.info).value, 0) <= |cards|
    ensures g.channels == DecodeAll(SpinChannelFormat, cards[p + 1..q])
  {
    var info := Decode(SpinGroupFormat, cards[p]);
    var n := ChannelCount(info).value;
    assert ChannelsAt(SpinChannelFormat, cards, p + 1, n).Some?;
  }

  /** A successful `_parse_spin_group_cards` from card `i` reads its groups
      at the successive starts, the last start being the end of the cards. */
  lemma {:induction false} SpinGroupsFromParts(cards: seq<string>, i: nat, acc: seq<SpinGroup>)
    requires i <= |cards| && SpinGroupsFrom(cards, i, acc).Some?
    ensures var r := SpinGroupsFrom(cards, i, acc).value;
      |acc| <= |r| && r[..|acc|] == acc && StepsAt(CardReader(cards), |cards|, Starts(cards, i), r[|acc|..])
    decreases |cards| - i
  {
    var r := SpinGroupsFrom(cards, i, acc).value;
    if i == |cards| {
      assert r == acc;
    } else {
      var (g, next) := GroupAt(cards, i).value;
      SpinGroupsFromStep(cards, i, next, g, acc);
      SpinGroupsFromParts(cards, next, acc + [g]);
      PrefixCons(r, acc, g);
      var o := Starts(cards, i);
      assert o == [i] + Starts(cards, next);
      assert CardReader(cards)(i) == Some((g, next));
      StepsCons(CardReader(cards), |cards|, o, r[|acc|..], i, next, g, Starts(cards, next), r[|acc| + 1..]);
    }
  }

  lemma {:induction false} PrefixCons<T>(r: seq<T>, acc: seq<T>, g: T)
    requires |acc| + 1 <= |r| && r[..|acc| + 1] == acc + [g]
    ensures r[..|acc|] == acc && r[|acc|..] == [g] + r[|acc| + 1..]
  {
    assert r[..|acc|] == (acc + [g])[..|acc|];
  }

  /** `_parse_spin_group_cards` reads `gs` exactly when the cards, from the
      first to the last, split into the groups of `gs` one after another. */
  lemma {:induction false} SpinGroupsPartition(cards: seq<string>, gs: seq<SpinGroup>)
    ensures SpinGroups(cards) == Some(gs) <==> StepsAt(CardReader(cards), |cards|, Starts(cards, 0), gs)
  {
    if SpinGroups(cards) == Some(gs) {
      SpinGroupsFromParts(cards, 0, []);
      assert gs[0..] == gs;
    }
    if StepsAt(CardReader(cards), |cards|, Starts(cards, 0), gs) {
      SpinGroupsFromSteps(cards, Starts(cards, 0), gs, []);
      assert [] + gs == gs;
    }
  }

  /** The written lines of a good group, found between `p` and `q`, are its
      header card and the `m` channel cards it counts. */
  lemma {:induction false} LinesHead(cards: seq<string>, p: nat, q: nat, g: SpinGroup, n: int, m: nat)
    requires GroupOk(g) && ChannelCount(g.info) == Some(n) && m == Max(n, 0)
    requires GroupLines(g).Some? && p <= q <= |cards| && cards[p..q] == GroupLines(g).value
    ensures q == p + 1 + m
    ensures cards[p..p + 1 + m] == [CardLine(SpinGroupFormat, g.info)] + CardLines(SpinChannelFormat, g.channels[..m])
  {
    assert m == Emitted(g) && m <= |g.channels|;
    GroupLinesOk(g);
    var t := CardLines(SpinChannelFormat, g.channels[..m]);
    assert |t| == m;
    assert cards[p..q] == [CardLine(SpinGroupFormat, g.info)] + t;
  }

  /** The written lines of a good group, found between `p` and `q`, are read
      back as that group, and reading moves on to `q`. */
  lemma {:induction false} GroupAtLines(cards: seq<string>, p: nat, q: nat, g: SpinGroup, n: int, m: nat)
    requires GroupOk(g) && ChannelCount(g.info) == Some(n) && m == Max(n, 0)
    requires GroupLines(g).Some? && p <= q <= |cards| && cards[p..q] == GroupLines(g).value
    ensures q == p + 1 + m
    ensures p < |cards| && GroupAt(cards, p) == Some((GroupReadBack(g), p + 1 + m))
  {
    LinesHead(cards, p, q, g, n, m);
    GroupAtWritten(cards, p, g, n, m);
  }

  /** The offsets of a run past its first group are those of the rest. */
  lemma {:induction false} OffsetsCons(gs: seq<SpinGroup>, lines: SpinGroup -> Option<seq<string>>, base: nat, n: nat)
    requires gs != [] && LinesOk(gs, lines) && LinesOk(gs[1..], lines) && n == |lines(gs[0]).value|
    ensures Offsets(gs, lines, base)[1..] == Offsets(gs[1..], lines, base + n)
  {
    var o1 := Offsets(gs[1..], lines, base + n);
    assert Offsets(gs, lines, base) == [base] + o1;
    assert ([base] + o1)[1..] == o1;
  }

  /** A group read at the first position, followed by steps from the next. */
  lemma {:induction false} StepsCons(at: Reader, end: nat, pos: seq<nat>, xs: seq<SpinGroup>, i: nat, j: nat, x: SpinGroup, tp: seq<nat>, tx: seq<SpinGroup>)
    requires xs != [] && |pos| == |xs| + 1 && i == pos[0] && j == pos[1] && x == xs[0]
    requires tp == pos[1..] && tx == xs[1..] && StepsAt(at, end, tp, tx)
    requires at(i) == Some((x, j))
    ensures StepsAt(at, end, pos, xs)
  {
  }

  /** The written lines from card `i` on start with those `h` of the first
      group, and the offsets of the rest start where `h` ends. */
  lemma {:induction false} WrittenHead(cards: seq<string>, i: nat, gs: seq<SpinGroup>, lines: SpinGroup -> Option<seq<string>>, h: seq<string>)
    requires gs != [] && LinesOk(gs, lines) && i <= |cards| && lines(gs[0]) == Some(h)
    requires SpinLinesWith(gs, lines).Some? && cards[i..] == SpinLinesWith(gs, lines).value
    ensures LinesOk(gs[1..], lines) && SpinLinesWith(gs[1..], lines).Some?
    ensures i + |h| <= |cards| && cards[i..i + |h|] == h && cards[i + |h|..] == SpinLinesWith(gs[1..], lines).value
    ensures Offsets(gs, lines, i)[1..] == Offsets(gs[1..], lines, i + |h|)
  {
    assert LinesOk(gs[1..], lines) by {
      forall j | 0 <= j < |gs| - 1 ensures lines(gs[1..][j]).Some? {
        assert gs[1..][j] == gs[j + 1];
      }
    }
    LinesWithHead(cards, i, gs, lines);
    OffsetsCons(gs, lines, i, |h|);
  }

  /** Where the lines `h` occur in `cards` at `p`, `at` reads a group there
      as `x` and goes on past those lines. */
  predicate ReadsAt(at: Reader, cards: seq<string>, h: seq<string>, x: SpinGroup, p: nat) {
    p + |h| <= |cards| && cards[p..p + |h|] == h ==> at(p) == Some((x, p + |h|))
  }

  /** Wherever the lines `lines` writes for `g` occur in `cards`, `at` reads
      a group there as `x`. */
  ghost predicate ReadsBack(at: Reader, cards: seq<string>, lines: SpinGroup -> Option<seq<string>>, g: SpinGroup, x: SpinGroup) {
    lines(g).Some? && forall p: nat :: ReadsAt(at, cards, lines(g).value, x, p)
  }

  /** `ReadsBack` at one position `p` where the lines occur, ending at `q`. */
  lemma {:induction false} ReadsBackAt(at: Reader, cards: seq<string>, lines: SpinGroup -> Option<seq<string>>, g: SpinGroup, x: SpinGroup, p: nat, q: nat)
    requires ReadsBack(at, cards, lines, g, x) && q == p + |lines(g).value| <= |cards| && cards[p..q] == lines(g).value
    ensures at(p) == Some((x, q))
  {
    assert ReadsAt(at, cards, lines(g).value, x, p);
  }

  /** `ReadsBack` from the lines `h` that `lines` writes for `g`. */
  lemma {:induction false} ReadsBackIntro(at: Reader, cards: seq<string>, lines: SpinGroup -> Option<seq<string>>, g: SpinGroup, x: SpinGroup, h: seq<string>)
    requires lines(g) == Some(h) && forall p: nat :: ReadsAt(at, cards, h, x, p)
    ensures ReadsBack(at, cards, lines, g, x)
  {
  }

  /** A good group's written cards, found at `p`, are read back there. */
  lemma {:induction false} GroupReadAt(cards: seq<string>, g: SpinGroup, h: seq<string>, p: nat)
    requires GroupOk(g) && GroupLines(g) == Some(h) && p + |h| <= |cards| && cards[p..p + |h|] == h
    ensures CardReader(cards)(p) == Some((GroupReadBack(g), p + |h|))
  {
    var m := Emitted(g);
    GroupAtLines(cards, p, p + |h|, g, ChannelCount(g.info).value, m);
    var q: nat := p + |h|;
    assert q == p + 1 + m;
    assert GroupAt(cards, p) == Some((GroupReadBack(g), q));
  }

  /** A good group's written cards are read back wherever they occur. */
  lemma {:induction false} GroupReadsBack(cards: seq<string>, g: SpinGroup)
    requires GroupOk(g)
    ensures ReadsBack(CardReader(cards), cards, GroupLines, g, GroupReadBack(g))
  {
    GroupLinesShape(g);
    var h := GroupLines(g).value;
    forall p: nat ensures ReadsAt(CardReader(cards), cards, h, GroupReadBack(g), p) {
      if p + |h| <= |cards| && cards[p..p + |h|] == h {
        GroupReadAt(cards, g, h, p);
      }
    }
    ReadsBackIntro(CardReader(cards), cards, GroupLines, g, GroupReadBack(g), h);
  }

  /** Each group of `gs` is read back as the matching one of `xs`. */
  ghost predicate AllReadBack(at: Reader, cards: seq<string>, lines: SpinGroup -> Option<seq<string>>, gs: seq<SpinGroup>, xs: seq<SpinGroup>)
    decreases |gs|
  {
    && |xs| == |gs|
    && (gs != [] ==> ReadsBack(at, cards, lines, gs[0], xs[0]) && AllReadBack(at, cards, lines, gs[1..], xs[1..]))
  }

  /** Groups each read back are all read back. */
  lemma {:induction false} AllReadBackOf(at: Reader, cards: seq<string>, lines: SpinGroup -> Option<seq<string>>, gs: seq<SpinGroup>, xs: seq<SpinGroup>)
    requires |xs| == |gs| && forall k :: 0 <= k < |gs| ==> ReadsBack(at, cards, lines, gs[k], xs[k])
    ensures AllReadBack(at, cards, lines, gs, xs)
    decreases |gs|
  {
    if gs != [] {
      assert ReadsBack(at, cards, lines, gs[0], xs[0]);
      var rg, rx := gs[1..], xs[1..];
      assert forall k :: 0 <= k < |rg| ==> rg[k] == gs[k + 1] && rx[k] == xs[k + 1];
      AllReadBackOf(at, cards, lines, rg, rx);
    }
  }

  /** From card `i` on, the lines written for `gs` are read group by group at
      their offsets, as `xs`, up to the end of the cards. */
  lemma {:induction false} StepsWritten(at: Reader, cards: seq<string>, i: nat, gs: seq<SpinGroup>, lines: SpinGroup -> Option<seq<string>>, xs: seq<SpinGroup>)
    requires LinesOk(gs, lines) && i <= |cards| && AllReadBack(at, cards, lines, gs, xs)
    requires SpinLinesWith(gs, lines).Some? && cards[i..] == SpinLinesWith(gs, lines).value
    ensures StepsAt(at, |cards|, Offsets(gs, lines, i), xs)
    decreases |gs|
  {
    if gs == [] {
      assert SpinLinesWith(gs, lines) == Some([]);
      assert |cards[i..]| == 0;
    } else {
      var h := lines(gs[0]).value;
      WrittenHead(cards, i, gs, lines, h);
      StepsWritten(at, cards, i + |h|, gs[1..], lines, xs[1..]);
      assert Offsets(gs, lines, i)[1..][0] == i + |h|;
      ReadsBackAt(at, cards, lines, gs[0], xs[0], i, i + |h|);
      StepsCons(at, |cards|, Offsets(gs, lines, i), xs, i, i + |h|, xs[0], Offsets(gs[1..], lines, i + |h|), xs[1..]);
    }
  }

  /** Cards written for `gs`, each group read back as the matching one of
      `xs`, parse back as `xs`. */
  lemma {:induction false} SpinGroupsOfLines(cards: seq<string>, gs: seq<SpinGroup>, lines: SpinGroup -> Option<seq<string>>, xs: seq<SpinGroup>)
    requires LinesOk(gs, lines) && AllReadBack(CardReader(cards), cards, lines, gs, xs)
    requires SpinLinesWith(gs, lines) == Some(cards)
    ensures SpinGroups(cards) == Some(xs)
  {
    assert cards[0..] == cards;
    StepsWritten(CardReader(cards), cards, 0, gs, lines, xs);
    SpinGroupsFromSteps(cards, Offsets(gs, lines, 0), xs, []);
    assert [] + xs == xs;
  }

  /** The written spin-group cards parse back as the groups read back. */
  lemma {:induction false} SpinGroupsOfWritten(gs: seq<SpinGroup>)
    requires GroupsOk(gs)
    ensures SpinLines(gs).Some? && SpinGroups(SpinLines(gs).value) == Some(GroupsReadBack(gs))
  {
    SpinLinesOk(gs);
    var cards := SpinLines(gs).value;
    var xs := GroupsReadBack(gs);
    forall k | 0 <= k < |gs| ensures GroupLines(gs[k]).Some? && ReadsBack(CardReader(cards), cards, GroupLines, gs[k], xs[k]) {
      GroupLinesShape(gs[k]);
      GroupReadsBack(cards, gs[k]);
    }
    AllReadBackOf(CardReader(cards), cards, GroupLines, gs, xs);
    SpinGroupsOfLines(cards, gs, GroupLines, xs);
  }

  /** Groups read back are good and write the same lines as those written. */
  lemma {:induction false} GroupsReadBackLines(gs: seq<SpinGroup>)
    requires GroupsOk(gs)
    ensures GroupsOk(GroupsReadBack(gs))
    ensures SpinLines(GroupsReadBack(gs)) == SpinLines(gs)
  {
    var bs := GroupsReadBack(gs);
    forall k | 0 <= k < |gs| ensures GroupOk(bs[k]) && GroupLines(bs[k]) == GroupLines(gs[k]) {
      GroupReadBackOk(gs[k]);
      GroupReadBackLines(gs[k]);
    }
    LinesWithSame(bs, gs, GroupLines);
  }
}
