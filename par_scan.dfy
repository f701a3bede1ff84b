/** The line scanner of `ParFile.read`: it walks the lines of a parameter
    file and collects the cards of the five sections it recognises, each
    section being a header line followed by cards up to a blank line. */
module ParScan {
  import opened Text

  /** The `particle_pair` variable.  It starts as a second name for the
      `particle_pairs` list (`particle_pair = particle_pairs = []`), becomes a
      fresh list at every `Name` card, and is left holding text after a block. */
  datatype PairBuf = CurAlias | CurList(lines: seq<string>) | CurText(text: string)

  /** The card lists `read` hands to the section parsers. */
  datatype Cards = Cards(pairs: seq<string>, spin: seq<string>, resonances: seq<string>,
                         radii: seq<string>, isotopes: seq<string>)

  datatype ScanState = ScanState(cur: PairBuf, cards: Cards)

  const Start := ScanState(CurAlias, Cards([], [], [], [], []))

  /** `line.upper().startswith(h)`. */
  predicate Header(line: string, h: string) {
    StartsWith(Upper(line), h)
  }

  // ---- the particle-pair block ----------------------------------------------

  /** Python's truth value of `particle_pair`. */
  predicate Truthy(pairs: seq<string>, cur: PairBuf) {
    match cur
    case CurAlias => pairs != []
    case CurList(ls) => ls != []
    case CurText(s) => s != []
  }

  /** The one-character strings a Python string iterates over. */
  function Chars(s: string): (r: seq<string>)
    ensures |r| == |s| && forall i :: 0 <= i < |s| ==> r[i] == [s[i]]
  {
    seq(|s|, i requires 0 <= i < |s| => [s[i]])
  }

  /** `" ".join(particle_pair)`. */
  function Joined(pairs: seq<string>, cur: PairBuf): string {
    match cur
    case CurAlias => Join(" ", pairs)
    case CurList(ls) => Join(" ", ls)
    case CurText(s) => Join(" ", Chars(s))
  }

  /** One card of the block: a `Name` card closes the pair collected so far
      (when there is one) and starts a new list; then the card is appended to
      whatever `particle_pair` now is, which fails (`None`) on text. */
  function PairLine(pairs: seq<string>, cur: PairBuf, line: string): Option<(seq<string>, PairBuf)> {
    var pairs1 := if StartsWith(line, "Name") && Truthy(pairs, cur) then pairs + [Joined(pairs, cur)] else pairs;
    var cur1 := if StartsWith(line, "Name") then CurList([]) else cur;
    match cur1
    case CurAlias => Some((pairs1 + [line], CurAlias))
    case CurList(ls) => Some((pairs1, CurList(ls + [line])))
    case CurText(_) => None
  }

  /** After the block: `particle_pair = " ".join(particle_pair)[:-1]`, appended. */
  function PairFinish(pairs: seq<string>, cur: PairBuf): (seq<string>, PairBuf) {
    var s := Joined(pairs, cur);
    var t := if s == [] then [] else s[..|s| - 1];
    (pairs + [t], CurText(t))
  }

  /** The `while line.strip()` loop of the block from line `m`: the index of
      the blank line that ends it, or `None` when the file ends first
      (`next` raises) or a card is appended to text. */
  function PairWalk(L: seq<string>, m: nat, pairs: seq<string>, cur: PairBuf): (r: Option<(nat, seq<string>, PairBuf)>)
    ensures r.Some? ==> m <= r.value.0 < |L| && IsBlank(L[r.value.0])
    decreases |L| - m
  {
    if m >= |L| then None
    else if IsBlank(L[m]) then Some((m, pairs, cur))
    else
      match PairLine(pairs, cur, L[m])
      case None => None
      case Some((p, c)) => PairWalk(L, m + 1, p, c)
  }

  /** The prefixes that open the sections, matched against the upper-cased line. */
  const PairKey := "PARTICLE PAIR DEF"
  const SpinKey := "SPIN GROUP INFO"
  const ResonanceKey := "RESONANCE PARAM"
  const RadiiKey := "CHANNEL RADII IN KEY"
  const IsotopeKey := "ISOTOPIC MASSES"

  /** `if line.upper().startswith("PARTICLE PAIR DEF")` with `line` at index
      `c`: the new position and text of `line`, and the new state. */
  function PairsIf(L: seq<string>, c: nat, line: string, st: ScanState): (r: Option<(nat, string, ScanState)>)
    requires c < |L|
    ensures r.Some? ==> c <= r.value.0 < |L|
  {
    if !Header(line, PairKey) then Some((c, line, st))
    else
      match PairWalk(L, c + 1, st.cards.pairs, st.cur)
      case None => None
      case Some((k, p, cur)) =>
        var (p2, cur2) := PairFinish(p, cur);
        Some((k, L[k], ScanState(cur2, st.cards.(pairs := p2))))
  }

  // ---- the other blocks -----------------------------------------------------

  /** `line.replace("\n", "")`. */
  function Chomp(line: string): string {
    ReplaceAll(line, "\n", "")
  }

  /** `line.replace("\n", " ")`. */
  function Spaced(line: string): string {
    ReplaceAll(line, "\n", " ")
  }

  /** A `while line.strip()` loop that appends `Chomp(line)` (or `Spaced(line)`
      when `spaced`) for each card from line `m` on. */
  function BlockWalk(L: seq<string>, m: nat, acc: seq<string>, spaced: bool): (r: Option<(nat, seq<string>)>)
    ensures r.Some? ==> m <= r.value.0 < |L| && IsBlank(L[r.value.0])
    decreases |L| - m
  {
    if m >= |L| then None
    else if IsBlank(L[m]) then Some((m, acc))
    else BlockWalk(L, m + 1, acc + [if spaced then Spaced(L[m]) else Chomp(L[m])], spaced)
  }

  /** A header followed by cards up to a blank line, collected by `Chomp`. */
  function SimpleIf(L: seq<string>, c: nat, line: string, h: string, acc: seq<string>): (r: Option<(nat, string, seq<string>)>)
    requires c < |L|
    ensures r.Some? ==> c <= r.value.0 < |L|
  {
    if !Header(line, h) then Some((c, line, acc))
    else
      match BlockWalk(L, c + 1, acc, false)
      case None => None
      case Some((k, acc2)) => Some((k, L[k], acc2))
  }

  /** The channel-radii block: its first card is read with its newline
      already turned into a space, and that text is what the loop tests. */
  function RadiiIf(L: seq<string>, c: nat, line: string, acc: seq<string>): (r: Option<(nat, string, seq<string>)>)
    requires c < |L|
    ensures r.Some? ==> c <= r.value.0 < |L|
  {
    if !Header(line, RadiiKey) then Some((c, line, acc))
    else if c + 1 >= |L| then None
    else
      var first := Spaced(L[c + 1]);
      if IsBlank(first) then Some((c + 1, first, acc))
      else
        match BlockWalk(L, c + 2, acc + [Spaced(first)], true)
        case None => None
        case Some((k, acc2)) => Some((k, L[k], acc2))
  }

  /** `for line in fid` from line `i` on.  The body's five `if`s follow in
      order, each testing the `line` the previous one left (a block leaves
      the blank line that ended it); after the last one the loop goes on with
      the line after the one it stopped at. */
  function ScanFrom(L: seq<string>, i: nat, st: ScanState): Option<ScanState>
    decreases |L| - i, 5
  {
    if i >= |L| then Some(st)
    else
      match PairsIf(L, i, L[i], st)
      case None => None
      case Some((c1, l1, st1)) => AfterPairs(L, c1, l1, st1)
  }

  /** The last four `if`s of the body and the rest of the loop. */
  function AfterPairs(L: seq<string>, c1: nat, l1: string, st1: ScanState): Option<ScanState>
    requires c1 < |L|
    decreases |L| - c1, 4
  {
    match SimpleIf(L, c1, l1, SpinKey, st1.cards.spin)
    case None => None
    case Some((c2, l2, spin)) => AfterSpin(L, c2, l2, st1.(cards := st1.cards.(spin := spin)))
  }

  /** The last three `if`s of the body and the rest of the loop. */
  function AfterSpin(L: seq<string>, c2: nat, l2: string, st2: ScanState): Option<ScanState>
    requires c2 < |L|
    decreases |L| - c2, 3
  {
    match SimpleIf(L, c2, l2, ResonanceKey, st2.cards.resonances)
    case None => None
    case Some((c3, l3, res)) => AfterResonances(L, c3, l3, st2.(cards := st2.cards.(resonances := res)))
  }

  /** The last two `if`s of the body and the rest of the loop. */
  function AfterResonances(L: seq<string>, c3: nat, l3: string, st3: ScanState): Option<ScanState>
    requires c3 < |L|
    decreases |L| - c3, 2
  {
    match RadiiIf(L, c3, l3, st3.cards.radii)
    case None => None
    case Some((c4, l4, radii)) => AfterRadii(L, c4, l4, st3.(cards := st3.cards.(radii := radii)))
  }

  /** The last `if` of the body and the rest of the loop. */
  function AfterRadii(L: seq<string>, c4: nat, l4: string, st4: ScanState): Option<ScanState>
    requires c4 < |L|
    decreases |L| - c4, 1
  {
    match SimpleIf(L, c4, l4, IsotopeKey, st4.cards.isotopes)
    case None => None
    case Some((c5, _, iso)) => ScanFrom(L, c5 + 1, st4.(cards := st4.cards.(isotopes := iso)))
  }

  /** The cards `read` collects from the lines of a file, or `None` where it raises. */
  function ScanLines(L: seq<string>): Option<Cards> {
    match ScanFrom(L, 0, Start)
    case None => None
    case Some(st) => Some(st.cards)
  }

  // ---- the scanning loops ---------------------------------------------------

  /** The particle-pair `while` loop. */
  method ReadPairBlock(L: seq<string>, j: nat, pairs0: seq<string>, cur0: PairBuf)
    returns (r: Option<(nat, seq<string>, PairBuf)>)
    ensures r == PairWalk(L, j, pairs0, cur0)
  {
    var m, pairs, cur := j, pairs0, cur0;
    while m < |L| && !IsBlank(L[m])
      invariant j <= m
      invariant PairWalk(L, m, pairs, cur) == PairWalk(L, j, pairs0, cur0)
      decreases |L| - m
    {
      var next := PairLine(pairs, cur, L[m]);
      if next.None? {
        return None;
      }
      pairs, cur := next.value.0, next.value.1;
      m := m + 1;
    }
    if m >= |L| {
      return None;
    }
    r := Some((m, pairs, cur));
  }

  /** The `while` loop of the other blocks. */
  method ReadBlock(L: seq<string>, j: nat, acc0: seq<string>, spaced: bool) returns (r: Option<(nat, seq<string>)>)
    ensures r == BlockWalk(L, j, acc0, spaced)
  {
    var m, acc := j, acc0;
    while m < |L| && !IsBlank(L[m])
      invariant j <= m
      invariant BlockWalk(L, m, acc, spaced) == BlockWalk(L, j, acc0, spaced)
      decreases |L| - m
    {
      acc := acc + [if spaced then Spaced(L[m]) else Chomp(L[m])];
      m := m + 1;
    }
    if m >= |L| {
      return None;
    }
    r := Some((m, acc));
  }

  /** The particle-pair `if` of the loop body. */
  method PairsStep(L: seq<string>, c: nat, line: string, st: ScanState) returns (r: Option<(nat, string, ScanState)>)
    requires c < |L|
    ensures r == PairsIf(L, c, line, st)
  {
    if !Header(line, PairKey) {
      return Some((c, line, st));
    }
    var block := ReadPairBlock(L, c + 1, st.cards.pairs, st.cur);
    if block.None? {
      return None;
    }
    var fin := PairFinish(block.value.1, block.value.2);
    r := Some((block.value.0, L[block.value.0], ScanState(fin.1, st.cards.(pairs := fin.0))));
  }

  /** The spin-group, resonance and isotope `if`s of the loop body. */
  method SimpleStep(L: seq<string>, c: nat, line: string, h: string, acc: seq<string>)
    returns (r: Option<(nat, string, seq<string>)>)
    requires c < |L|
    ensures r == SimpleIf(L, c, line, h, acc)
  {
    if !Header(line, h) {
      return Some((c, line, acc));
    }
    var block := ReadBlock(L, c + 1, acc, false);
    if block.None? {
      return None;
    }
    r := Some((block.value.0, L[block.value.0], block.value.1));
  }

  /** The channel-radii `if` of the loop body. */
  method RadiiStep(L: seq<string>, c: nat, line: string, acc: seq<string>)
    returns (r: Option<(nat, string, seq<string>)>)
    requires c < |L|
    ensures r == RadiiIf(L, c, line, acc)
  {
    if !Header(line, RadiiKey) {
      return Some((c, line, acc));
    }
    if c + 1 >= |L| {
      return None;
    }
    var first := Spaced(L[c + 1]);
    if IsBlank(first) {
      return Some((c + 1, first, acc));
    }
    var block := ReadBlock(L, c + 2, acc + [Spaced(first)], true);
    if block.None? {
      return None;
    }
    r := Some((block.value.0, L[block.value.0], block.value.1));
  }

  /** The `for line in fid` loop of `read`. */
  method ScanFile(L: seq<string>) returns (r: Option<Cards>)
    ensures r == ScanLines(L)
  {
    var st := Start;
    var i := 0;
    while i < |L|
      invariant ScanFrom(L, i, st) == ScanFrom(L, 0, Start)
      decreases |L| - i
    {
      var next := BodyStep(L, i, st);
      if next.None? {
        return None;
      }
      i, st := next.value.0 + 1, next.value.1;
    }
    r := Some(st.cards);
  }

  /** One pass of the loop body: where it stopped and the new state, the
      scan going on after that line; `None` where the body raises. */
  method BodyStep(L: seq<string>, i: nat, st: ScanState) returns (r: Option<(nat, ScanState)>)
    requires i < |L|
    ensures r.None? ==> ScanFrom(L, i, st) == None
    ensures r.Some? ==> i <= r.value.0 < |L| && ScanFrom(L, i, st) == ScanFrom(L, r.value.0 + 1, r.value.1)
  {
    var s1 := PairsStep(L, i, L[i], st);
    if s1.None? {
      return None;
    }
    var (c1, l1, st1) := s1.value;
    assert ScanFrom(L, i, st) == AfterPairs(L, c1, l1, st1);
    var s2 := SimpleStep(L, c1, l1, SpinKey, st1.cards.spin);
    if s2.None? {
      return None;
    }
    var (c2, l2, spin) := s2.value;
    var st2 := st1.(cards := st1.cards.(spin := spin));
    assert AfterPairs(L, c1, l1, st1) == AfterSpin(L, c2, l2, st2);
    var s3 := SimpleStep(L, c2, l2, ResonanceKey, st2.cards.resonances);
    if s3.None? {
      return None;
    }
    var (c3, l3, res) := s3.value;
    var st3 := st2.(cards := st2.cards.(resonances := res));
    assert AfterSpin(L, c2, l2, st2) == AfterResonances(L, c3, l3, st3);
    var s4 := RadiiStep(L, c3, l3, st3.cards.radii);
    if s4.None? {
      return None;
    }
    var (c4, l4, radii) := s4.value;
    var st4 := st3.(cards := st3.cards.(radii := radii));
    assert AfterResonances(L, c3, l3, st3) == AfterRadii(L, c4, l4, st4);
    var s5 := SimpleStep(L, c4, l4, IsotopeKey, st4.cards.isotopes);
    if s5.None? {
      return None;
    }
    var (c5, _, iso) := s5.value;
    r := Some((c5, st4.(cards := st4.cards.(isotopes := iso))));
  }
}
