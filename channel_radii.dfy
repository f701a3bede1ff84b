/** The channel-radii section of a parameter file: free-form `Radii= …
    Flags= …` cards, each followed by `Group= … Chan= …,` cards, recognised
    by two regular expressions and written back from a fixed template. */
module ChannelRadii {
  import opened Text

  /** One `Group=` card: the spin-group number and the channels it lists. */
  datatype ChannelGroup = ChannelGroup(id: int, channels: seq<int>)

  /** One radius record: the two radii and two flags as text, and its groups. */
  datatype Radius = Radius(radii: seq<string>, flags: seq<string>, groups: seq<ChannelGroup>)

  // ---- the two regular expressions ------------------------------------------

  /** The character classes the patterns use: `\s`, `[\d.]`, `\d` and `[\d, ]`. */
  datatype CharClass = Whitespace | DigitOrDot | Digit | ChannelChar

  predicate InClass(c: char, cls: CharClass) {
    match cls
    case Whitespace => IsSpace(c)
    case DigitOrDot => IsDigit(c) || c == '.'
    case Digit => IsDigit(c)
    case ChannelChar => IsDigit(c) || c == ',' || c == ' '
  }

  /** Length of the longest run of class characters at the front of `t`. */
  function Run(t: string, cls: CharClass): (n: nat)
    ensures n <= |t| && (n < |t| ==> !InClass(t[n], cls))
    ensures forall i :: 0 <= i < n ==> InClass(t[i], cls)
  {
    if t != [] && InClass(t[0], cls) then 1 + Run(t[1..], cls) else 0
  }

  /** `t` with its leading run of class characters consumed (a greedy `*`). */
  function Skip(t: string, cls: CharClass): string {
    t[Run(t, cls)..]
  }

  /** The radii pattern anchored at the front of `t`: the four captured groups.
      Every class meets a different character after it, so the greedy runs
      never need to give characters back. */
  function MatchRadii(t: string): Option<(string, string, string, string)> {
    if !StartsWith(t, "Radii=") then None
    else
      var radii := CommaPair(Skip(t[6..], Whitespace), DigitOrDot);
      if radii.None? then None
      else
        var flags := MatchFlags(Skip(radii.value.2, Whitespace));
        if flags.None? then None
        else Some((radii.value.0, radii.value.1, flags.value.0, flags.value.1))
  }

  /** The `Flags=\s*(\d+),\s*(\d+)` tail of the radii pattern. */
  function MatchFlags(t: string): Option<(string, string)> {
    if !StartsWith(t, "Flags=") then None
    else
      var flags := CommaPair(Skip(t[6..], Whitespace), Digit);
      if flags.None? then None else Some((flags.value.0, flags.value.1))
  }

  /** `(X+),\s*(X+)` anchored at the front of `t`, for the class X: the two
      runs and what follows the second. */
  function CommaPair(t: string, cls: CharClass): Option<(string, string, string)> {
    var n := Run(t, cls);
    if n == 0 then None else CommaTail(t[..n], t[n..], cls)
  }

  /** The `,\s*(X+)` after the first run `x` of `CommaPair`. */
  function CommaTail(x: string, t: string, cls: CharClass): Option<(string, string, string)> {
    if !StartsWith(t, ",") then None
    else
      var t2 := Skip(t[1..], Whitespace);
      var m := Run(t2, cls);
      if m == 0 then None else Some((x, t2[..m], t2[m..]))
  }

  /** `re.search` of the radii pattern: the leftmost position where it matches. */
  function SearchRadii(s: string): Option<(string, string, string, string)>
    decreases |s|
  {
    if MatchRadii(s).Some? then MatchRadii(s)
    else if s == [] then None
    else SearchRadii(s[1..])
  }

  /** Largest `k` with `1 <= k < n` and `r[k] == ','`: how far the greedy
      `[\d, ]+` gives back so that a comma follows it. */
  function LastComma(r: string, n: nat): (k: Option<nat>)
    requires n <= |r|
    ensures k.Some? ==> 1 <= k.value < n && r[k.value] == ','
                        && forall i :: k.value < i < n ==> r[i] != ','
    ensures k.None? ==> forall i :: 1 <= i < n ==> r[i] != ','
  {
    if n <= 1 then None
    else if r[n - 1] == ',' then Some(n - 1)
    else LastComma(r, n - 1)
  }

  /** The group pattern anchored at the front of `t`: group number text and
      channel-list text.  `Chan` is tried before `Channel`. */
  function MatchGroup(t: string): (m: Option<(string, string)>)
    ensures m.Some? ==> m.value.0 != [] && AllDigits(m.value.0)
  {
    if !StartsWith(t, "Group=") then None
    else
      var t1 := t[6..];
      var n := Run(t1, Digit);
      var t2 := t1[n..];
      if n == 0 || !StartsWith(t2, " ") then None
      else
        var t3 := t2[1..];
        if !StartsWith(t3, "Chan=") && !StartsWith(t3, "Channel=") then None
        else
          var t4 := if StartsWith(t3, "Chan=") then t3[5..] else t3[8..];
          var r := t4[..Run(t4, ChannelChar)];
          match LastComma(r, |r|)
          case None => None
          case Some(k) => Some((t1[..n], r[..k]))
  }

  /** `re.search` of the group pattern. */
  function SearchGroup(s: string): (m: Option<(string, string)>)
    ensures m.Some? ==> m.value.0 != [] && AllDigits(m.value.0)
    decreases |s|
  {
    if MatchGroup(s).Some? then MatchGroup(s)
    else if s == [] then None
    else SearchGroup(s[1..])
  }

  /** `[int(ch) for ch in text.split(',')]`, failing when a piece is not an integer. */
  function ParseChannels(pieces: seq<string>): (r: Option<seq<int>>)
    ensures r.Some? ==> |r.value| == |pieces|
                        && forall k :: 0 <= k < |pieces| ==> ParseInt(pieces[k]) == Some(r.value[k])
  {
    ParseAll(pieces, ParseInt)
  }

  // ---- _parse_channel_radii_cards -------------------------------------------

  /** The radius record a radii match starts. */
  function Started(m: (string, string, string, string)): Radius {
    Radius([Strip(m.0), Strip(m.1)], [Strip(m.2), Strip(m.3)], [])
  }

  /** `[int(match.group(1))] + [int(ch) for ch in match.group(2).split(',')]`,
      or `None` where an `int()` raises. */
  function GroupOf(m: (string, string)): Option<ChannelGroup> {
    match ParseInt(m.0)
    case None => None
    case Some(id) =>
      match ParseChannels(Split(m.1, ','))
      case None => None
      case Some(chs) => Some(ChannelGroup(id, chs))
  }

  /** What the group pattern makes of a card. */
  datatype GroupReading = NoGroupMatch | BadChannel | GroupMatch(group: ChannelGroup)

  /** What the parser makes of one card: the record a radii match starts,
      and the group a group match adds. */
  datatype CardReading = CardReading(radii: Option<Radius>, group: GroupReading)

  function ReadCard(card: string): CardReading {
    var radii := match SearchRadii(card) case None => None case Some(m) => Some(Started(m));
    var group :=
      match SearchGroup(card)
      case None => NoGroupMatch
      case Some(m) => match GroupOf(m) case None => BadChannel case Some(g) => GroupMatch(g);
    CardReading(radii, group)
  }

  /** The outer `while`: `rd[pos - 1]` reads the current card, the cards from
      `pos` on are what the generator still holds. */
  function RadiiLoop(rd: seq<CardReading>, pos: nat, acc: seq<Radius>): Option<seq<Radius>>
    requires 1 <= pos <= |rd|
    decreases |rd| - pos, 0
  {
    match rd[pos - 1].radii
    case None => Some(acc)
    case Some(r) =>
      if pos == |rd| then None
      else GroupLoop(rd, pos + 1, r, acc)
  }

  /** The inner `while`: collects group cards into `cur`; when the generator
      runs dry it breaks out, and the outer loop re-tests the last card. */
  function GroupLoop(rd: seq<CardReading>, pos: nat, cur: Radius, acc: seq<Radius>): Option<seq<Radius>>
    requires 1 <= pos <= |rd|
    decreases |rd| - pos, 1
  {
    match rd[pos - 1].group
    case NoGroupMatch => RadiiLoop(rd, pos, acc + [cur])
    case BadChannel => None
    case GroupMatch(g) =>
      var next := cur.(groups := cur.groups + [g]);
      if pos == |rd| then RadiiLoop(rd, pos, acc + [next])
      else GroupLoop(rd, pos + 1, next, acc)
  }

  function Readings(cards: seq<string>): (rd: seq<CardReading>)
    ensures |rd| == |cards| && forall k :: 0 <= k < |cards| ==> rd[k] == ReadCard(cards[k])
  {
    Mapped(cards, ReadCard)
  }

  /** What `_parse_channel_radii_cards` stores, or `None` where it raises
      (an empty card list, a radii card with no card after it, a channel
      that is not an integer). */
  function ParseRadii(cards: seq<string>): Option<seq<Radius>> {
    if cards == [] then None else RadiiLoop(Readings(cards), 1, [])
  }

  /** `_parse_channel_radii_cards` over the card generator. */
  method ParseChannelRadiiCards(cards: seq<string>) returns (r: Option<seq<Radius>>)
    ensures r == ParseRadii(cards)
  {
    if |cards| == 0 {
      return None;
    }
    r := ReadRadii(Readings(cards));
  }

  /** The outer `while` of `_parse_channel_radii_cards`, over the cards as read. */
  method ReadRadii(rd: seq<CardReading>) returns (r: Option<seq<Radius>>)
    requires rd != []
    ensures r == RadiiLoop(rd, 1, [])
  {
    var pos := 1;
    var acc: seq<Radius> := [];
    while rd[pos - 1].radii.Some?
      invariant 1 <= pos <= |rd|
      invariant RadiiLoop(rd, pos, acc) == RadiiLoop(rd, 1, [])
      decreases |rd| - pos
    {
      if pos == |rd| {
        return None;
      }
      var res := ReadGroupCards(rd, pos + 1, rd[pos - 1].radii.value, acc);
      if res.None? {
        return None;
      }
      pos, acc := res.value.0, acc + [res.value.1];
    }
    r := Some(acc);
  }

  /** The inner `while` of `_parse_channel_radii_cards`: the position of the
      card left for the outer loop and the completed record, or `None` when
      a channel fails to parse. */
  method ReadGroupCards(rd: seq<CardReading>, pos0: nat, cur0: Radius, acc: seq<Radius>)
    returns (res: Option<(nat, Radius)>)
    requires 1 <= pos0 <= |rd|
    ensures res.None? ==> GroupLoop(rd, pos0, cur0, acc) == None
    ensures res.Some? ==>
      pos0 <= res.value.0 <= |rd|
      && GroupLoop(rd, pos0, cur0, acc) == RadiiLoop(rd, res.value.0, acc + [res.value.1])
  {
    var pos, cur := pos0, cur0;
    while !rd[pos - 1].group.NoGroupMatch?
      invariant pos0 <= pos <= |rd|
      invariant GroupLoop(rd, pos, cur, acc) == GroupLoop(rd, pos0, cur0, acc)
      decreases |rd| - pos
    {
      if rd[pos - 1].group.BadChannel? {
        return None;
      }
      cur := cur.(groups := cur.groups + [rd[pos - 1].group.group]);
      if pos == |rd| {
        return Some((pos, cur));
      }
      pos := pos + 1;
    }
    res := Some((pos, cur));
  }

  // ---- _write_channel_radii ------------------------------------------------

  function IntsText(xs: seq<int>): (r: seq<string>)
    ensures |r| == |xs| && forall k :: 0 <= k < |xs| ==> r[k] == IntToString(xs[k])
  {
    seq(|xs|, k requires 0 <= k < |xs| => IntToString(xs[k]))
  }

  function RadiiText(r: Radius): string {
    "Radii= " + Join(", ", r.radii) + "    Flags= " + Join(", ", r.flags)
  }

  function GroupText(g: ChannelGroup): string {
    "    Group=" + IntToString(g.id) + " Chan=" + Join(", ", IntsText(g.channels)) + ","
  }

  /** The lines `_write_channel_radii` returns for one record. */
  function RadiusLines(r: Radius): (ls: seq<string>)
    ensures |ls| == 1 + |r.groups|
  {
    [RadiiLine(r)] + Mapped(r.groups, GroupLine)
  }

  function RadiiLine(r: Radius): string {
    LJust(RadiiText(r), 80)
  }

  function GroupLine(g: ChannelGroup): string {
    LJust(GroupText(g), 80)
  }

  method WriteChannelRadii(r: Radius) returns (cards: seq<string>)
    ensures cards == RadiusLines(r)
  {
    cards := [LJust(RadiiText(r), 80)];
    for k := 0 to |r.groups|
      invariant cards == RadiusLines(r.(groups := r.groups[..k]))
    {
      cards := cards + [LJust(GroupText(r.groups[k]), 80)];
      RadiusLinesStep(r, k);
    }
    assert r.groups[..|r.groups|] == r.groups;
  }

  lemma RadiusLinesStep(r: Radius, k: nat)
    requires k < |r.groups|
    ensures RadiusLines(r.(groups := r.groups[..k + 1])) == RadiusLines(r.(groups := r.groups[..k])) + [LJust(GroupText(r.groups[k]), 80)]
  {
    var r1, r0 := r.(groups := r.groups[..k + 1]), r.(groups := r.groups[..k]);
    assert RadiiText(r1) == RadiiText(r0) by {
      assert r1.radii == r0.radii && r1.flags == r0.flags;
    }
    MappedSnoc(r.groups, k, GroupLine);
  }

  /** The cards the reader collects from written lines: each newline became a space. */
  function AsCards(lines: seq<string>): (cs: seq<string>)
    ensures |cs| == |lines| && forall k :: 0 <= k < |lines| ==> cs[k] == lines[k] + " "
  {
    seq(|lines|, k requires 0 <= k < |lines| => lines[k] + " ")
  }

  function AllRadiusLines(rs: seq<Radius>): seq<string>
    decreases |rs|
  {
    if rs == [] then [] else RadiusLines(rs[0]) + AllRadiusLines(rs[1..])
  }

  // ---- the written cards read back ------------------------------------------

  /** Texts the radii pattern captures back unchanged. */
  predicate RadiusText(s: string) {
    s != [] && forall i :: 0 <= i < |s| ==> IsDigit(s[i]) || s[i] == '.'
  }

  predicate FlagText(s: string) {
    s != [] && AllDigits(s)
  }

  predicate GoodGroup(g: ChannelGroup) {
    g.id >= 0 && |g.channels| >= 1 && forall k :: 0 <= k < |g.channels| ==> g.channels[k] >= 0
  }

  predicate GoodRadius(r: Radius) {
    |r.radii| == 2 && |r.flags| == 2
    && RadiusText(r.radii[0]) && RadiusText(r.radii[1]) && FlagText(r.flags[0]) && FlagText(r.flags[1])
    && forall k :: 0 <= k < |r.groups| ==> GoodGroup(r.groups[k])
  }

  /** Records whose written cards read back to themselves: the radii match
      `[\d.]+`, the flags are digits, group numbers and channels are
      non-negative, every group lists a channel, and the last record has a
      group card (otherwise the reader asks the generator for one card too many). */
  predicate Writable(rs: seq<Radius>) {
    rs != [] && (forall k :: 0 <= k < |rs| ==> GoodRadius(rs[k])) && rs[|rs| - 1].groups != []
  }

  lemma {:induction false} RunOf(a: string, rest: string, cls: CharClass)
    requires forall i :: 0 <= i < |a| ==> InClass(a[i], cls)
    requires rest == [] || !InClass(rest[0], cls)
    ensures Run(a + rest, cls) == |a| && (a + rest)[..|a|] == a && (a + rest)[|a|..] == rest
    decreases |a|
  {
    if a != [] {
      assert (a + rest)[1..] == a[1..] + rest;
      RunOf(a[1..], rest, cls);
    } else {
      assert a + rest == rest;
    }
  }

  lemma SkipOf(a: string, rest: string, cls: CharClass)
    requires forall i :: 0 <= i < |a| ==> InClass(a[i], cls)
    requires rest == [] || !InClass(rest[0], cls)
    ensures Skip(a + rest, cls) == rest
  {
    RunOf(a, rest, cls);
  }

  lemma StartsWithOf(p: string, rest: string)
    ensures StartsWith(p + rest, p) && (p + rest)[|p|..] == rest
  {
    assert (p + rest)[..|p|] == p;
  }

  lemma CommaTailOf(x: string, y: string, rest: string, cls: CharClass)
    requires (cls == DigitOrDot || cls == Digit) && y != []
    requires forall i :: 0 <= i < |y| ==> InClass(y[i], cls)
    requires rest == [] || !InClass(rest[0], cls)
    ensures CommaTail(x, ", " + y + rest, cls) == Some((x, y, rest))
  {
    var t := ", " + y + rest;
    StartsWithOf(",", " " + (y + rest));
    assert t[1..] == " " + (y + rest);
    assert !InClass((y + rest)[0], Whitespace) by { assert (y + rest)[0] == y[0]; }
    SkipOf(" ", y + rest, Whitespace);
    RunOf(y, rest, cls);
  }

  lemma CommaPairOf(x: string, y: string, rest: string, cls: CharClass)
    requires (cls == DigitOrDot || cls == Digit) && x != [] && y != []
    requires forall i :: 0 <= i < |x| ==> InClass(x[i], cls)
    requires forall i :: 0 <= i < |y| ==> InClass(y[i], cls)
    requires rest == [] || !InClass(rest[0], cls)
    ensures CommaPair(x + ", " + y + rest, cls) == Some((x, y, rest))
  {
    var t1 := ", " + y + rest;
    assert x + ", " + y + rest == x + t1;
    RunOf(x, t1, cls);
    CommaTailOf(x, y, rest, cls);
  }

  lemma MatchFlagsOf(f1: string, f2: string, pad: string)
    requires FlagText(f1) && FlagText(f2) && IsBlank(pad)
    ensures MatchFlags("Flags=" + (Spaces(1) + (f1 + ", " + f2 + pad))) == Some((f1, f2))
  {
    var t9 := f1 + ", " + f2 + pad;
    StartsWithOf("Flags=", Spaces(1) + t9);
    assert t9[0] == f1[0];
    SkipSpacesOf(1, t9);
    assert pad == [] || !InClass(pad[0], Digit) by {
      if pad != [] { assert IsSpace(pad[0]); }
    }
    CommaPairOf(f1, f2, pad, Digit);
  }

  /** The radii pattern matches a written radii card from its first column. */
  lemma MatchRadiiSteps(t: string, t2: string, t6: string, r1: string, r2: string, f: (string, string))
    requires StartsWith(t, "Radii=") && Skip(t[6..], Whitespace) == t2
    requires CommaPair(t2, DigitOrDot) == Some((r1, r2, t6))
    requires MatchFlags(Skip(t6, Whitespace)) == Some(f)
    ensures MatchRadii(t) == Some((r1, r2, f.0, f.1))
  {
  }

  lemma SkipSpacesOf(n: nat, rest: string)
    requires rest == [] || !IsSpace(rest[0])
    ensures Skip(Spaces(n) + rest, Whitespace) == rest
  {
    SkipOf(Spaces(n), rest, Whitespace);
  }

  lemma MatchRadiiCard(r1: string, r2: string, f1: string, f2: string, pad: string)
    requires RadiusText(r1) && RadiusText(r2) && FlagText(f1) && FlagText(f2)
    requires IsBlank(pad)
    ensures MatchRadii("Radii=" + (Spaces(1) + (r1 + ", " + r2 + (Spaces(4) + ("Flags=" + (Spaces(1) + (f1 + ", " + f2 + pad)))))))
         == Some((r1, r2, f1, f2))
  {
    var t6 := Spaces(4) + ("Flags=" + (Spaces(1) + (f1 + ", " + f2 + pad)));
    var t2 := r1 + ", " + r2 + t6;
    assert t2[0] == r1[0];
    RadiiLabelOf(t2);
    assert t6[0] == ' ';
    CommaPairOf(r1, r2, t6, DigitOrDot);
    FlagsAfterSpaces(f1, f2, pad);
    MatchRadiiSteps("Radii=" + (Spaces(1) + t2), t2, t6, r1, r2, (f1, f2));
  }

  /** The label and the blank after it come off the radii text. */
  lemma RadiiLabelOf(t2: string)
    requires t2 == [] || !IsSpace(t2[0])
    ensures var t := "Radii=" + (Spaces(1) + t2); StartsWith(t, "Radii=") && Skip(t[6..], Whitespace) == t2
  {
    StartsWithOf("Radii=", Spaces(1) + t2);
    SkipSpacesOf(1, t2);
  }

  /** The flags of a radii card after the blanks that separate them from the radii. */
  lemma FlagsAfterSpaces(f1: string, f2: string, pad: string)
    requires FlagText(f1) && FlagText(f2) && IsBlank(pad)
    ensures MatchFlags(Skip(Spaces(4) + ("Flags=" + (Spaces(1) + (f1 + ", " + f2 + pad))), Whitespace)) == Some((f1, f2))
  {
    var t7 := "Flags=" + (Spaces(1) + (f1 + ", " + f2 + pad));
    assert t7[0] == 'F';
    SkipSpacesOf(4, t7);
    MatchFlagsOf(f1, f2, pad);
  }

  /** Pieces that parse as the integers `xs`, one by one, parse as the list. */
  lemma ParseChannelsEach(ps: seq<string>, xs: seq<int>)
    requires |ps| == |xs| && forall k :: 0 <= k < |ps| ==> ParseInt(ps[k]) == Some(xs[k])
    ensures ParseChannels(ps) == Some(xs)
  {
    var r := ParseAll(ps, ParseInt);
    assert r.Some?;
    assert r.value == xs;
  }

  lemma IntsTextDigits(chs: seq<int>)
    requires forall k :: 0 <= k < |chs| ==> chs[k] >= 0
    ensures forall k :: 0 <= k < |chs| ==> ',' !in IntsText(chs)[k] && AllDigits(IntsText(chs)[k])
  {
    forall k | 0 <= k < |chs|
      ensures ',' !in IntsText(chs)[k] && AllDigits(IntsText(chs)[k])
    {
      assert IntsText(chs)[k] == NatToString(chs[k]);
    }
  }

  lemma ChannelPiecesParse(chs: seq<int>)
    requires |chs| >= 1
    ensures ParseChannels([IntsText(chs)[0]] + Prefixed(" ", IntsText(chs)[1..])) == Some(chs)
  {
    var xs := IntsText(chs);
    var ps := [xs[0]] + Prefixed(" ", xs[1..]);
    forall k | 0 <= k < |ps|
      ensures ParseInt(ps[k]) == Some(chs[k])
    {
      ParseIntOfIntToString(chs[k]);
      if k > 0 {
        assert ps[k] == " " + xs[k] + "";
        ParseIntPadded(" ", xs[k], "");
      }
    }
    ParseChannelsEach(ps, chs);
  }

  /** The channel text of a written group card parses back to its channels. */
  lemma ChannelsReadBack(chs: seq<int>)
    requires |chs| >= 1 && forall k :: 0 <= k < |chs| ==> chs[k] >= 0
    ensures ParseChannels(Split(Join(", ", IntsText(chs)), ',')) == Some(chs)
  {
    var xs := IntsText(chs);
    assert Split(Join(", ", xs), ',') == [xs[0]] + Prefixed(" ", xs[1..]) by {
      IntsTextDigits(chs);
      SplitCommaJoin("", xs);
      assert "" + Join(", ", xs) == Join(", ", xs);
      assert "" + xs[0] == xs[0];
    }
    ChannelPiecesParse(chs);
  }

  lemma {:induction false} SearchGroupAbsent(s: string)
    requires 'G' !in s
    ensures SearchGroup(s) == None
    decreases |s|
  {
    if s != [] {
      assert !StartsWith(s, "Group=") by { assert s[0] != 'G'; }
      SearchGroupAbsent(s[1..]);
    }
  }

  lemma {:induction false} SearchRadiiAbsent(s: string)
    requires 'R' !in s
    ensures SearchRadii(s) == None
    decreases |s|
  {
    if s != [] {
      assert !StartsWith(s, "Radii=") by { assert s[0] != 'R'; }
      SearchRadiiAbsent(s[1..]);
    }
  }

  /** Leading spaces never start a group match. */
  lemma {:induction false} SearchGroupSpaces(n: nat, rest: string)
    ensures SearchGroup(Spaces(n) + rest) == SearchGroup(rest)
    decreases n
  {
    if n == 0 {
      assert Spaces(n) + rest == rest;
    } else {
      var s := Spaces(n) + rest;
      assert !StartsWith(s, "Group=") by { assert s[0] == ' '; }
      assert s[1..] == Spaces(n - 1) + rest;
      SearchGroupSpaces(n - 1, rest);
    }
  }

  lemma LastCommaAt(j: string, pad: nat)
    requires j != []
    ensures LastComma(j + ([','] + Spaces(pad)), |j| + 1 + pad) == Some(|j|)
  {
    var r := j + ([','] + Spaces(pad));
    var k := LastComma(r, |r|);
    assert r[|j|] == ',';
    assert k.Some?;
    assert forall i :: |j| < i < |r| ==> r[i] == ' ';
  }

  lemma MatchGroupSteps(t: string, d: string, t2: string, t4: string, k: nat)
    requires StartsWith(t, "Group=") && d != []
    requires Run(t[6..], Digit) == |d| && t[6..][..|d|] == d && t[6..][|d|..] == t2
    requires StartsWith(t2, " ") && StartsWith(t2[1..], "Chan=") && t2[1..][5..] == t4
    requires Run(t4, ChannelChar) == |t4| && LastComma(t4, |t4|) == Some(k)
    ensures MatchGroup(t) == Some((d, t4[..k]))
  {
    assert t4[..|t4|] == t4;
  }

  /** The group pattern matches a written group card from its `Group=`. */
  lemma MatchGroupCard(d: string, j: string, pad: nat)
    requires d != [] && AllDigits(d) && j != []
    requires forall i :: 0 <= i < |j| ==> InClass(j[i], ChannelChar)
    ensures MatchGroup("Group=" + (d + (Spaces(1) + ("Chan=" + (j + ([','] + Spaces(pad))))))) == Some((d, j))
  {
    var t4 := j + ([','] + Spaces(pad));
    var t3 := "Chan=" + t4;
    var t2 := Spaces(1) + t3;
    var t1 := d + t2;
    var t := "Group=" + t1;
    assert StartsWith(t, "Group=") && t[6..] == t1 by { StartsWithOf("Group=", t1); }
    assert Run(t1, Digit) == |d| && t1[..|d|] == d && t1[|d|..] == t2 by {
      assert t2[0] == ' ';
      RunOf(d, t2, Digit);
    }
    assert StartsWith(t2, " ") && t2[1..] == t3 by { StartsWithOf(Spaces(1), t3); }
    assert StartsWith(t3, "Chan=") && t3[5..] == t4 by { StartsWithOf("Chan=", t4); }
    ChannelTailRun(j, pad);
    LastCommaAt(j, pad);
    assert t4[..|j|] == j;
    MatchGroupSteps(t, d, t2, t4, |j|);
  }

  /** A channel list, its comma and the padding are all channel characters. */
  lemma ChannelTailRun(j: string, pad: nat)
    requires forall i :: 0 <= i < |j| ==> InClass(j[i], ChannelChar)
    ensures Run(j + ([','] + Spaces(pad)), ChannelChar) == |j| + 1 + pad
  {
    var t4 := j + ([','] + Spaces(pad));
    forall i | 0 <= i < |t4| ensures InClass(t4[i], ChannelChar) {
      if i >= |j| {
        assert t4[i] == ([','] + Spaces(pad))[i - |j|];
      }
    }
    RunOf(t4, [], ChannelChar);
    assert t4 + [] == t4;
  }

  lemma {:induction false} JoinInClass(sep: string, xs: seq<string>, cls: CharClass)
    requires forall i :: 0 <= i < |sep| ==> InClass(sep[i], cls)
    requires forall k, i :: 0 <= k < |xs| && 0 <= i < |xs[k]| ==> InClass(xs[k][i], cls)
    ensures forall i :: 0 <= i < |Join(sep, xs)| ==> InClass(Join(sep, xs)[i], cls)
    decreases |xs|
  {
    if |xs| > 1 {
      JoinInClass(sep, xs[1..], cls);
      assert forall k, i :: 0 <= k < |xs| - 1 && 0 <= i < |xs[1..][k]| ==> xs[1..][k][i] == xs[k + 1][i];
    }
  }

  /** A written group card, with its padding spelled out. */
  lemma GroupTextShape(g: ChannelGroup, pad: nat)
    requires g.id >= 0
    ensures GroupText(g) + Spaces(pad)
         == Spaces(4) + ("Group=" + (NatToString(g.id) + (Spaces(1) + ("Chan=" + (Join(", ", IntsText(g.channels)) + ([','] + Spaces(pad)))))))
  {
    assert "    Group=" == Spaces(4) + "Group=";
    assert " Chan=" == Spaces(1) + "Chan=";
    assert "," == [','];
    Regroup(Spaces(4), "Group=", NatToString(g.id), Spaces(1), "Chan=", Join(", ", IntsText(g.channels)), [','], Spaces(pad));
  }

  lemma Regroup(x1: string, x2: string, n: string, y1: string, y2: string, j: string, c: string, s: string)
    ensures (x1 + x2) + n + (y1 + y2) + j + c + s == x1 + (x2 + (n + (y1 + (y2 + (j + (c + s))))))
  {
  }

  /** The group matched on a written group card, and the channels read from it. */
  lemma GroupCardMatch(g: ChannelGroup)
    requires GoodGroup(g)
    ensures SearchGroup(LJust(GroupText(g), 80) + " ")
         == Some((NatToString(g.id), Join(", ", IntsText(g.channels))))
  {
    var d := NatToString(g.id);
    var xs := IntsText(g.channels);
    var j := Join(", ", xs);
    var pad := Max(|GroupText(g)|, 80) - |GroupText(g)| + 1;
    LJustPadsOne(GroupText(g), pad);
    GroupTextShape(g, pad);
    var rest := "Group=" + (d + (Spaces(1) + ("Chan=" + (j + ([','] + Spaces(pad))))));
    SearchGroupSpaces(4, rest);
    ChannelsJoinClass(g.channels);
    MatchGroupCard(d, j, pad);
  }

  /** A left-justified line and the blank the reader adds to it. */
  lemma LJustPadsOne(t: string, pad: nat)
    requires pad == Max(|t|, 80) - |t| + 1
    ensures LJust(t, 80) + " " == t + Spaces(pad)
  {
    LJustPads(t, 80);
    SpacesAppend(pad - 1, 1);
    assert " " == Spaces(1);
  }

  /** The joined channels of a group are channel characters only. */
  lemma ChannelsJoinClass(chs: seq<int>)
    requires |chs| >= 1 && forall k :: 0 <= k < |chs| ==> chs[k] >= 0
    ensures var j := Join(", ", IntsText(chs)); j != [] && forall i :: 0 <= i < |j| ==> InClass(j[i], ChannelChar)
  {
    var xs := IntsText(chs);
    var j := Join(", ", xs);
    IntsTextDigits(chs);
    assert xs[0] != [];
    assert forall k, i :: 0 <= k < |xs| && 0 <= i < |xs[k]| ==> IsDigit(xs[k][i]);
    JoinInClass(", ", xs, ChannelChar);
    if |xs| > 1 { assert j == xs[0] + ", " + Join(", ", xs[1..]); }
  }

  /** The card `_write_channel_radii` writes for group `g`, as the reader sees it. */
  function GroupCard(g: ChannelGroup): string {
    GroupLine(g) + " "
  }

  /** The card written for the radii of `r`, as the reader sees it. */
  function RadiiCard(r: Radius): string {
    RadiiLine(r) + " "
  }

  /** A group card reads as `g` and never as a radii card. */
  predicate ReadsAsGroup(card: string, g: ChannelGroup) {
    ReadCard(card) == CardReading(None, GroupMatch(g))
  }

  /** A radii card starts `r` and never reads as a group card. */
  predicate ReadsAsRadii(card: string, r: Radius) {
    ReadCard(card) == CardReading(Some(r.(groups := [])), NoGroupMatch)
  }

  lemma GroupCardReads(g: ChannelGroup)
    requires GoodGroup(g)
    ensures ReadsAsGroup(GroupCard(g), g)
  {
    GroupCardMatch(g);
    ParseIntOfIntToString(g.id);
    ChannelsReadBack(g.channels);
    GroupCardNoRadii(g);
    SearchRadiiAbsent(GroupCard(g));
  }

  lemma NoLetterInDigits(s: string, c: char)
    requires AllDigits(s) && !IsDigit(c)
    ensures c !in s
  {
  }

  lemma GroupCardNoRadii(g: ChannelGroup)
    requires GoodGroup(g)
    ensures 'R' !in GroupCard(g)
  {
    var xs := IntsText(g.channels);
    IntsTextDigits(g.channels);
    forall k | 0 <= k < |xs| ensures 'R' !in xs[k] {
      NoLetterInDigits(xs[k], 'R');
    }
    JoinFree(", ", xs, 'R');
    NoLetterInDigits(NatToString(g.id), 'R');
    LJustPads(GroupText(g), 80);
  }

  /** A written radii card, with its padding spelled out. */
  lemma RadiiTextShape(r: Radius, pad: nat)
    requires |r.radii| == 2 && |r.flags| == 2
    ensures RadiiText(r) + Spaces(pad)
         == "Radii=" + (Spaces(1) + (r.radii[0] + ", " + r.radii[1] + (Spaces(4) + ("Flags=" + (Spaces(1)
              + (r.flags[0] + ", " + r.flags[1] + Spaces(pad)))))))
  {
    assert "Radii= " == "Radii=" + Spaces(1);
    assert "    Flags= " == Spaces(4) + ("Flags=" + Spaces(1));
    JoinTwo(", ", r.radii);
    JoinTwo(", ", r.flags);
  }

  lemma JoinTwo(sep: string, xs: seq<string>)
    requires |xs| == 2
    ensures Join(sep, xs) == xs[0] + sep + xs[1]
  {
    assert xs[1..] == [xs[1]];
  }

  lemma RadiusTextStrips(s: string)
    requires RadiusText(s)
    ensures Strip(s) == s && 'G' !in s
  {
    assert forall i :: 0 <= i < |s| ==> s[i] != 'G';
    assert !IsSpace(s[0]) && !IsSpace(s[|s| - 1]);
    StripOfNoSpaceEnds(s);
  }

  lemma RadiiCardNoGroup(r: Radius)
    requires GoodRadius(r)
    ensures 'G' !in RadiiCard(r)
  {
    RadiusTextStrips(r.radii[0]);
    RadiusTextStrips(r.radii[1]);
    NoLetterInDigits(r.flags[0], 'G');
    NoLetterInDigits(r.flags[1], 'G');
    JoinTwo(", ", r.radii);
    JoinTwo(", ", r.flags);
    assert RadiiText(r) == "Radii= " + (r.radii[0] + ", " + r.radii[1]) + "    Flags= " + (r.flags[0] + ", " + r.flags[1]);
    LJustPads(RadiiText(r), 80);
  }

  lemma RadiiCardReads(r: Radius)
    requires GoodRadius(r)
    ensures ReadsAsRadii(RadiiCard(r), r)
  {
    var pad := Max(|RadiiText(r)|, 80) - |RadiiText(r)| + 1;
    assert RadiiCard(r) == RadiiText(r) + Spaces(pad) by {
      LJustPads(RadiiText(r), 80);
      SpacesAppend(pad - 1, 1);
      assert " " == Spaces(1);
    }
    RadiiTextShape(r, pad);
    MatchRadiiCard(r.radii[0], r.radii[1], r.flags[0], r.flags[1], Spaces(pad));
    StartedOf(r);
    RadiiCardNoGroup(r);
    SearchGroupAbsent(RadiiCard(r));
  }

  lemma FlagTextStrips(s: string)
    requires FlagText(s)
    ensures Strip(s) == s
  {
    assert !IsSpace(s[0]) && !IsSpace(s[|s| - 1]);
    StripOfNoSpaceEnds(s);
  }

  lemma StartedOf(r: Radius)
    requires GoodRadius(r)
    ensures Started((r.radii[0], r.radii[1], r.flags[0], r.flags[1])) == r.(groups := [])
  {
    RadiusTextStrips(r.radii[0]);
    RadiusTextStrips(r.radii[1]);
    FlagTextStrips(r.flags[0]);
    FlagTextStrips(r.flags[1]);
    assert [r.radii[0], r.radii[1]] == r.radii;
    assert [r.flags[0], r.flags[1]] == r.flags;
  }

  lemma AsCardsAppend(a: seq<string>, b: seq<string>)
    ensures AsCards(a + b) == AsCards(a) + AsCards(b)
  {
  }

  /** The lines of several records followed by one more. */
  lemma {:induction false} AllRadiusLinesSnoc(rs: seq<Radius>, r: Radius)
    ensures AllRadiusLines(rs + [r]) == AllRadiusLines(rs) + RadiusLines(r)
    decreases |rs|
  {
    if rs == [] {
      assert [r][1..] == [];
    } else {
      assert (rs + [r])[1..] == rs[1..] + [r];
      AllRadiusLinesSnoc(rs[1..], r);
    }
  }

  /** The cards of several records: those of the first, then the rest. */
  lemma AllCardsSplit(rs: seq<Radius>)
    requires rs != []
    ensures AsCards(AllRadiusLines(rs)) == AsCards(RadiusLines(rs[0])) + AsCards(AllRadiusLines(rs[1..]))
  {
    AsCardsAppend(RadiusLines(rs[0]), AllRadiusLines(rs[1..]));
  }

  lemma {:induction false} AllCardsCount(rs: seq<Radius>)
    ensures |AllRadiusLines(rs)| >= |rs|
    decreases |rs|
  {
    if rs != [] {
      AllCardsCount(rs[1..]);
    }
  }

  lemma RadiusCardsAt(r: Radius)
    ensures AsCards(RadiusLines(r))[0] == RadiiCard(r)
    ensures forall j :: 1 <= j <= |r.groups| ==> AsCards(RadiusLines(r))[j] == GroupCard(r.groups[j - 1])
  {
    var tail := Mapped(r.groups, GroupLine);
    LinesAsCards(RadiiLine(r), tail);
  }

  lemma LinesAsCards(head: string, tail: seq<string>)
    ensures AsCards([head] + tail)[0] == head + " "
    ensures forall j :: 1 <= j <= |tail| ==> AsCards([head] + tail)[j] == tail[j - 1] + " "
  {
  }

  /** The inner loop over the group cards of `r`, from its `i`-th group on:
      it completes `r` and hands the card after the last group card back to
      the outer loop, or ends the parse when the cards run out. */
  lemma {:induction false} GroupLoopReads(rd: seq<CardReading>, start: nat, r: Radius, i: nat, acc: seq<Radius>)
    requires 1 <= start && i < |r.groups| && start - 1 + |r.groups| <= |rd|
    requires forall k :: 0 <= k < |r.groups| ==> rd[start - 1 + k] == CardReading(None, GroupMatch(r.groups[k]))
    requires start - 1 + |r.groups| < |rd| ==> rd[start - 1 + |r.groups|].group == NoGroupMatch
    ensures start - 1 + |r.groups| == |rd| ==>
      GroupLoop(rd, start + i, r.(groups := r.groups[..i]), acc) == Some(acc + [r])
    ensures start - 1 + |r.groups| < |rd| ==>
      GroupLoop(rd, start + i, r.(groups := r.groups[..i]), acc) == RadiiLoop(rd, start + |r.groups|, acc + [r])
    decreases |r.groups| - i
  {
    var pos := start + i;
    assert rd[pos - 1] == CardReading(None, GroupMatch(r.groups[i]));
    assert r.groups[..i] + [r.groups[i]] == r.groups[..i + 1];
    if i + 1 < |r.groups| {
      GroupLoopReads(rd, start, r, i + 1, acc);
    } else {
      assert r.groups[..i + 1] == r.groups;
      assert r.(groups := r.groups) == r;
    }
  }

  /** How the cards written for `r` read. */
  function RadiusReadings(r: Radius): (rd: seq<CardReading>)
    ensures |rd| == 1 + |r.groups| && rd[0] == CardReading(Some(r.(groups := [])), NoGroupMatch)
    ensures forall k :: 0 <= k < |r.groups| ==> rd[1 + k] == CardReading(None, GroupMatch(r.groups[k]))
  {
    [CardReading(Some(r.(groups := [])), NoGroupMatch)]
      + seq(|r.groups|, k requires 0 <= k < |r.groups| => CardReading(None, GroupMatch(r.groups[k])))
  }

  function AllReadings(rs: seq<Radius>): seq<CardReading>
    decreases |rs|
  {
    if rs == [] then [] else RadiusReadings(rs[0]) + AllReadings(rs[1..])
  }

  lemma ReadingsAppend(a: seq<string>, b: seq<string>)
    ensures Readings(a + b) == Readings(a) + Readings(b)
  {
    MappedAppend(a, b, ReadCard);
  }

  lemma RadiiCardRead(r: Radius)
    requires GoodRadius(r)
    ensures Readings(AsCards(RadiusLines(r)))[0] == RadiusReadings(r)[0]
  {
    RadiusCardsAt(r);
    RadiiCardReads(r);
  }

  lemma GroupCardsRead(r: Radius)
    requires GoodRadius(r)
    ensures forall j :: 1 <= j < |AsCards(RadiusLines(r))| ==> Readings(AsCards(RadiusLines(r)))[j] == RadiusReadings(r)[j]
  {
    var cs := AsCards(RadiusLines(r));
    forall j | 1 <= j < |cs|
      ensures Readings(cs)[j] == RadiusReadings(r)[j]
    {
      GroupCardReadAt(r, j);
    }
  }

  lemma GroupCardReadAt(r: Radius, j: nat)
    requires GoodRadius(r) && 1 <= j < |AsCards(RadiusLines(r))|
    ensures ReadCard(AsCards(RadiusLines(r))[j]) == RadiusReadings(r)[j]
  {
    var g := r.groups[j - 1];
    RadiusCardsAt(r);
    assert AsCards(RadiusLines(r))[j] == GroupCard(g);
    assert RadiusReadings(r)[j] == CardReading(None, GroupMatch(g));
    GroupCardReads(g);
  }

  lemma RadiusCardsRead(r: Radius)
    requires GoodRadius(r)
    ensures Readings(AsCards(RadiusLines(r))) == RadiusReadings(r)
  {
    RadiiCardRead(r);
    GroupCardsRead(r);
  }

  /** Every written card reads as the part of the records it was written for. */
  lemma {:induction false} CardsRead(rs: seq<Radius>)
    requires forall k :: 0 <= k < |rs| ==> GoodRadius(rs[k])
    ensures Readings(AsCards(AllRadiusLines(rs))) == AllReadings(rs)
    decreases |rs|
  {
    if rs != [] {
      AllCardsSplit(rs);
      ReadingsAppend(AsCards(RadiusLines(rs[0])), AsCards(AllRadiusLines(rs[1..])));
      RadiusCardsRead(rs[0]);
      CardsRead(rs[1..]);
    }
  }

  lemma {:induction false} AllReadingsCount(rs: seq<Radius>)
    ensures |AllReadings(rs)| >= |rs|
    ensures rs != [] ==> |AllReadings(rs)| >= |rs| + |rs[|rs| - 1].groups|
    decreases |rs|
  {
    if rs != [] {
      AllReadingsCount(rs[1..]);
      if |rs| > 1 {
        assert rs[1..][|rs[1..]| - 1] == rs[|rs| - 1];
      }
    }
  }

  /** The outer loop from the radii card of `rs[0]`: every record is read back. */
  lemma {:induction false} RadiiLoopReads(rd: seq<CardReading>, pos: nat, rs: seq<Radius>, acc: seq<Radius>)
    requires Writable(rs) && 1 <= pos <= |rd| && rd[pos - 1..] == AllReadings(rs)
    ensures RadiiLoop(rd, pos, acc) == Some(acc + rs)
    decreases |rs|, 1
  {
    if rs[0].groups == [] {
      RadiiLoopBare(rd, pos, rs, acc);
    } else {
      RadiiLoopGroups(rd, pos, rs, acc);
    }
  }

  /** Facts about the readings of the first record's cards. */
  lemma {:induction false} FirstRecordReadings(rd: seq<CardReading>, pos: nat, rs: seq<Radius>)
    requires Writable(rs) && 1 <= pos <= |rd| && rd[pos - 1..] == AllReadings(rs)
    ensures rd[pos - 1] == CardReading(Some(rs[0].(groups := [])), NoGroupMatch)
    ensures pos + |rs[0].groups| <= |rd|
    ensures pos + |rs[0].groups| == |rd| <==> |rs| == 1
    ensures forall k :: 0 <= k < |rs[0].groups| ==> rd[pos + k] == CardReading(None, GroupMatch(rs[0].groups[k]))
    ensures pos + |rs[0].groups| < |rd| ==>
      rd[pos + |rs[0].groups|..] == AllReadings(rs[1..])
      && rd[pos + |rs[0].groups|] == CardReading(Some(rs[1].(groups := [])), NoGroupMatch)
  {
    var r := rs[0];
    var rest := AllReadings(rs[1..]);
    var n := |r.groups|;
    assert rd[pos - 1..] == RadiusReadings(r) + rest;
    AllReadingsCount(rs[1..]);
    if |rs| > 1 {
      assert rs[1..][|rs[1..]| - 1] == rs[|rs| - 1];
      assert rest == RadiusReadings(rs[1]) + AllReadings(rs[2..]) by {
        assert rs[1..][0] == rs[1];
        assert rs[1..][1..] == rs[2..];
      }
    }
    forall k | 0 <= k < n
      ensures rd[pos + k] == CardReading(None, GroupMatch(r.groups[k]))
    {
      assert rd[pos + k] == RadiusReadings(r)[1 + k];
    }
    if pos + n < |rd| {
      assert rd[pos + n..] == rest;
    }
  }

  lemma {:induction false} RadiiLoopBare(rd: seq<CardReading>, pos: nat, rs: seq<Radius>, acc: seq<Radius>)
    requires Writable(rs) && 1 <= pos <= |rd| && rd[pos - 1..] == AllReadings(rs)
    requires rs[0].groups == []
    ensures RadiiLoop(rd, pos, acc) == Some(acc + rs)
    decreases |rs|, 0
  {
    var r := rs[0];
    FirstRecordReadings(rd, pos, rs);
    assert r.(groups := []) == r;
    RadiiLoopReads(rd, pos + 1, rs[1..], acc + [r]);
    assert acc + [r] + rs[1..] == acc + rs;
  }

  lemma {:induction false} RadiiLoopGroups(rd: seq<CardReading>, pos: nat, rs: seq<Radius>, acc: seq<Radius>)
    requires Writable(rs) && 1 <= pos <= |rd| && rd[pos - 1..] == AllReadings(rs)
    requires rs[0].groups != []
    ensures RadiiLoop(rd, pos, acc) == Some(acc + rs)
    decreases |rs|, 0
  {
    var r := rs[0];
    var n := |r.groups|;
    FirstRecordReadings(rd, pos, rs);
    assert r.groups[..0] == [];
    GroupLoopReads(rd, pos + 1, r, 0, acc);
    if pos + n == |rd| {
      assert acc + [r] == acc + rs;
    } else {
      RadiiLoopReads(rd, pos + n + 1, rs[1..], acc + [r]);
      assert acc + [r] + rs[1..] == acc + rs;
    }
  }

  /** Channel-radii records written by `_write_channel_radii` and read back by
      `_parse_channel_radii_cards` come back unchanged. */
  lemma ChannelRadiiRoundTrip(rs: seq<Radius>)
    requires Writable(rs)
    ensures ParseRadii(AsCards(AllRadiusLines(rs))) == Some(rs)
  {
    var cards := AsCards(AllRadiusLines(rs));
    CardsRead(rs);
    AllReadingsCount(rs);
    assert cards != [];
    assert Readings(cards)[0..] == AllReadings(rs);
    RadiiLoopReads(Readings(cards), 1, rs, []);
    assert [] + rs == rs;
  }
}
