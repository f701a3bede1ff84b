/** `LptFile`: the reader of a SAMMY run's `.lpt` listing.  It keeps an
    ordered table of search patterns, extracts one statistic per pattern from
    the lines of the listing, and collects the alphanumeric command cards the
    listing echoes.  The listing's lines are passed in (the file is opened
    anew by each operation), and the `eval` of a pattern's line format is a
    parameter. */
module LptOutput {
  import opened Text

  /** One entry of the pattern table: a line starting with `startText`
      marks the statistic, which is read from the line `skippedRows` further
      on by evaluating `lineFormat`. */
  datatype Pattern = Pattern(startText: string, skippedRows: int, lineFormat: string)

  /** `eval(line_format)` with `line` bound to the first argument; `None`
      where the evaluation raises. */
  type Eval<V> = (string, string) -> Option<V>

  /** The table `__init__` installs, in its insertion order. */
  function DefaultPatterns(): seq<(string, Pattern)> {
    [("input_file", Pattern(" Name of input file", 1, "line.split()[1]")),
     ("par_file", Pattern(" Name of parameter file", 1, "line.split()[1]")),
     ("Emin", Pattern(" Emin and Emax", 0, "float(line.split()[4])")),
     ("Emax", Pattern(" Emin and Emax", 0, "float(line.split()[5])")),
     ("thickness", Pattern(" Target Thickness=", 0, "float(line.split()[2])")),
     ("varied_params", Pattern(" Number of varied parameters", 0, "int(line.split()[5])")),
     ("reduced_chi2", Pattern(" CUSTOMARY CHI SQUARED DIVIDED", 0, "float(line.split()[7])")),
     ("time_elapsed", Pattern(Spaces(30) + "Total time", 0, "float(line.split()[3])"))]
  }

  /** A dictionary held as its entries in insertion order: no key twice. */
  predicate KeysDistinct(ps: seq<(string, Pattern)>) {
    forall i, j :: 0 <= i < j < |ps| ==> ps[i].0 != ps[j].0
  }

  /** `d.get(key)`. */
  function Lookup(ps: seq<(string, Pattern)>, key: string): (r: Option<Pattern>)
    ensures r.Some? <==> exists i :: 0 <= i < |ps| && ps[i].0 == key
  {
    if ps == [] then None
    else if ps[0].0 == key then Some(ps[0].1)
    else
      var r := Lookup(ps[1..], key);
      assert forall i :: 0 < i < |ps| ==> ps[i] == ps[1..][i - 1];
      r
  }

  /** `d[key] = p`: an existing key keeps its place and takes the new value;
      a new key goes last. */
  function Registered(ps: seq<(string, Pattern)>, key: string, p: Pattern): seq<(string, Pattern)> {
    if ps == [] then [(key, p)]
    else if ps[0].0 == key then [(key, p)] + ps[1..]
    else [ps[0]] + Registered(ps[1..], key, p)
  }

  lemma DefaultKeysDistinct()
    ensures KeysDistinct(DefaultPatterns())
  {
    var ks := ["input_file", "par_file", "Emin", "Emax", "thickness", "varied_params", "reduced_chi2", "time_elapsed"];
    assert forall i :: 0 <= i < 8 ==> DefaultPatterns()[i].0 == ks[i];
  }

  /** Registering keeps every other key's entry, gives `key` the new one,
      and leaves the earlier keys in their order. */
  lemma {:induction false} RegisteredSpec(ps: seq<(string, Pattern)>, key: string, p: Pattern)
    requires KeysDistinct(ps)
    ensures var r := Registered(ps, key, p);
      KeysDistinct(r)
      && Lookup(r, key) == Some(p)
      && (forall k :: k != key ==> Lookup(r, k) == Lookup(ps, k))
      && |ps| <= |r| <= |ps| + 1
      && (forall i :: 0 <= i < |ps| ==> r[i].0 == ps[i].0)
      && (|r| == |ps| + 1 <==> Lookup(ps, key).None?)
  {
    if ps != [] && ps[0].0 != key {
      var t := ps[1..];
      assert KeysDistinct(t) by {
        forall i, j | 0 <= i < j < |t| ensures t[i].0 != t[j].0 {
          assert t[i] == ps[i + 1] && t[j] == ps[j + 1];
        }
      }
      RegisteredSpec(t, key, p);
      var r := Registered(ps, key, p);
      var rt := Registered(t, key, p);
      assert r == [ps[0]] + rt;
      assert forall i :: 0 < i < |r| ==> r[i] == rt[i - 1];
      assert Lookup(t, ps[0].0).None? by {
        forall i | 0 <= i < |t| ensures t[i].0 != ps[0].0 {
          assert t[i] == ps[i + 1];
        }
      }
      assert Lookup(rt, ps[0].0).None?;
      assert KeysDistinct(r) by {
        forall i, j | 0 <= i < j < |r| ensures r[i].0 != r[j].0 {
          if i == 0 {
            assert r[j] == rt[j - 1];
          }
        }
      }
      assert forall i :: 0 <= i < |ps| ==> r[i].0 == ps[i].0 by {
        forall i | 0 < i < |ps| ensures r[i].0 == ps[i].0 {
          assert r[i] == rt[i - 1] && ps[i] == t[i - 1];
        }
      }
      assert Lookup(ps, key) == Lookup(t, key);
    } else if ps != [] {
      var r := Registered(ps, key, p);
      assert forall i :: 0 < i < |ps| ==> r[i] == ps[i];
      assert forall k :: k != key ==> Lookup(r, k) == Lookup(ps[1..], k) == Lookup(ps, k);
    }
  }

  // ---- stats ----------------------------------------------------------------

  /** `range(skipped_rows)` is empty for a negative count. */
  function Skip(p: Pattern): nat {
    if p.skippedRows < 0 then 0 else p.skippedRows
  }

  /** One pattern's pass over the listing from line `i`, `last` being the
      value stored so far: every line starting with the start text makes the
      pass step `Skip(p)` lines further (those lines are not examined) and
      evaluate the line format there, overwriting the value; the pass then
      goes on after that line.  `None` where a step runs off the end of the
      listing (`next` raises) or the evaluation raises. */
  function PatternWalk<V>(L: seq<string>, i: nat, p: Pattern, ev: Eval<V>, last: Option<V>): Option<Option<V>>
    decreases |L| - i
  {
    if i >= |L| then Some(last)
    else if !StartsWith(L[i], p.startText) then PatternWalk(L, i + 1, p, ev, last)
    else if i + Skip(p) >= |L| then None
    else
      match ev(L[i + Skip(p)], p.lineFormat)
      case None => None
      case Some(v) => PatternWalk(L, i + Skip(p) + 1, p, ev, Some(v))
  }

  /** What `stats` returns for the table `ps`, `None` where it raises: the
      patterns in table order, each adding its key when its pass found a
      match. */
  function StatsOf<V>(L: seq<string>, ps: seq<(string, Pattern)>, ev: Eval<V>): Option<map<string, V>>
  {
    if ps == [] then Some(map[])
    else
      match StatsOf(L, ps[..|ps| - 1], ev)
      case None => None
      case Some(m) =>
        match PatternWalk(L, 0, ps[|ps| - 1].1, ev, None)
        case None => None
        case Some(None) => Some(m)
        case Some(Some(v)) => Some(m[ps[|ps| - 1].0 := v])
  }

  /** A pass over lines none of which starts with the start text keeps the
      value it started with. */
  lemma {:induction false} PatternNoMatch<V>(L: seq<string>, i: nat, p: Pattern, ev: Eval<V>, last: Option<V>)
    requires forall j :: i <= j < |L| ==> !StartsWith(L[j], p.startText)
    ensures PatternWalk(L, i, p, ev, last) == Some(last)
    decreases |L| - i
  {
    if i < |L| {
      PatternNoMatch(L, i + 1, p, ev, last);
    }
  }

  /** The value comes from the last match: a match at `h` whose line format
      evaluates to `v`, with no match after the evaluated line, makes the
      pass from `h` end with `v`, whatever was stored before. */
  lemma LastMatchWins<V>(L: seq<string>, h: nat, p: Pattern, ev: Eval<V>, last: Option<V>, v: V)
    requires h + Skip(p) < |L| && StartsWith(L[h], p.startText)
    requires ev(L[h + Skip(p)], p.lineFormat) == Some(v)
    requires forall j :: h + Skip(p) < j < |L| ==> !StartsWith(L[j], p.startText)
    ensures PatternWalk(L, h, p, ev, last) == Some(Some(v))
  {
    PatternNoMatch(L, h + Skip(p) + 1, p, ev, Some(v));
  }

  /** A match too close to the end for its skipped rows makes the pass fail. */
  lemma MatchRunsOff<V>(L: seq<string>, h: nat, p: Pattern, ev: Eval<V>, last: Option<V>)
    requires h < |L| <= h + Skip(p) && StartsWith(L[h], p.startText)
    ensures PatternWalk(L, h, p, ev, last).None?
  {
  }

  function Keys(ps: seq<(string, Pattern)>): set<string> {
    set i | 0 <= i < |ps| :: ps[i].0
  }

  /** `stats` fails exactly when some pattern's pass fails. */
  lemma {:induction false} StatsFails<V>(L: seq<string>, ps: seq<(string, Pattern)>, ev: Eval<V>)
    ensures StatsOf(L, ps, ev).None? <==> exists i :: 0 <= i < |ps| && PatternWalk(L, 0, ps[i].1, ev, None).None?
  {
    if ps != [] {
      var init := ps[..|ps| - 1];
      StatsFails(L, init, ev);
      assert forall i :: 0 <= i < |init| ==> init[i] == ps[i];
      if (exists i :: 0 <= i < |ps| && PatternWalk(L, 0, ps[i].1, ev, None).None?) {
        var i :| 0 <= i < |ps| && PatternWalk(L, 0, ps[i].1, ev, None).None?;
        if i < |init| {
          assert init[i] == ps[i];
        }
      }
    }
  }

  /** When `stats` succeeds on a table without repeated keys, the result
      holds exactly the keys whose pass found a match, each with the value of
      its pass. */
  lemma {:induction false} StatsEntries<V>(L: seq<string>, ps: seq<(string, Pattern)>, ev: Eval<V>, m: map<string, V>)
    requires KeysDistinct(ps) && StatsOf(L, ps, ev) == Some(m)
    ensures m.Keys <= Keys(ps)
    ensures forall i :: 0 <= i < |ps| ==>
      PatternWalk(L, 0, ps[i].1, ev, None).Some?
      && (ps[i].0 in m <==> PatternWalk(L, 0, ps[i].1, ev, None).value.Some?)
      && (ps[i].0 in m ==> m[ps[i].0] == PatternWalk(L, 0, ps[i].1, ev, None).value.value)
  {
    if ps != [] {
      var n := |ps| - 1;
      var init := ps[..n];
      assert forall i :: 0 <= i < n ==> init[i] == ps[i];
      assert KeysDistinct(init);
      var m0 := StatsOf(L, init, ev).value;
      StatsEntries(L, init, ev, m0);
      assert Keys(ps) == Keys(init) + {ps[n].0} by {
        forall k | k in Keys(ps) ensures k in Keys(init) + {ps[n].0} {
          var i :| 0 <= i < |ps| && ps[i].0 == k;
          if i < n {
            assert init[i].0 == k;
          }
        }
      }
      forall i | 0 <= i < n ensures ps[i].0 != ps[n].0 {
      }
    }
  }

  // ---- commands -------------------------------------------------------------

  /** How a listing shows its command cards: the line that opens a block,
      the one that ends it, and the cleaning of each card line. */
  datatype Markers = Markers(header: string, end: string, card: string -> string)

  /** A command card as collected: newlines removed, then stripped. */
  function CommandCard(line: string): string {
    Strip(ReplaceAll(line, "\n", ""))
  }

  const Listing := Markers(" *********** Alphanumeric Control Information", " **** end", CommandCard)

  /** The cards of the lines `B`: each non-blank line as `CommandCard`. */
  function CardsOf(B: seq<string>, card: string -> string): seq<string> {
    if B == [] then []
    else CardsOf(B[..|B| - 1], card) + (if IsBlank(B[|B| - 1]) then [] else [card(B[|B| - 1])])
  }

  /** The `while` loop after a header, from line `m` with the cards `cs`:
      the index of the line starting with the end marker and the cards, or
      `None` when the listing ends first (`next` raises). */
  function BlockFrom(L: seq<string>, m: nat, cs: seq<string>, mk: Markers): (r: Option<(nat, seq<string>)>)
    ensures r.Some? ==> m <= r.value.0 < |L|
    decreases |L| - m
  {
    if m >= |L| then None
    else if StartsWith(L[m], mk.end) then Some((m, cs))
    else BlockFrom(L, m + 1, if IsBlank(L[m]) then cs else cs + [mk.card(L[m])], mk)
  }

  /** The `for` loop of `commands` from line `i`, `cards` being the list so
      far (`None` while it is unbound): each header line starts a new list,
      and the loop goes on after the block's end line.  `None` where it
      raises: a block that runs off the listing, or no header at all (the
      final `return cards` of an unbound name). */
  function CommandsFrom(L: seq<string>, i: nat, cards: Option<seq<string>>, mk: Markers): Option<seq<string>>
    decreases |L| - i
  {
    if i >= |L| then cards
    else if !StartsWith(L[i], mk.header) then CommandsFrom(L, i + 1, cards, mk)
    else
      match BlockFrom(L, i + 1, [], mk)
      case None => None
      case Some((k, cs)) => CommandsFrom(L, k + 1, Some(cs), mk)
  }

  /** What `commands` returns, `None` where it raises. */
  function CommandsOf(L: seq<string>, mk: Markers): Option<seq<string>> {
    CommandsFrom(L, 0, None, mk)
  }

  /** Lines that are not the end marker add their cards in order. */
  lemma {:induction false} BlockPrefix(L: seq<string>, m: nat, k: nat, cs: seq<string>, mk: Markers)
    requires m <= k <= |L|
    requires forall j :: m <= j < k ==> !StartsWith(L[j], mk.end)
    ensures BlockFrom(L, m, cs, mk) == BlockFrom(L, k, cs + CardsOf(L[m..k], mk.card), mk)
    decreases k - m
  {
    if k == m {
      assert cs + CardsOf(L[m..k], mk.card) == cs;
    } else {
      BlockPrefix(L, m, k - 1, cs, mk);
      var A := CardsOf(L[m..k - 1], mk.card);
      assert L[m..k][..k - 1 - m] == L[m..k - 1];
      assert L[m..k][k - 1 - m] == L[k - 1];
      var P := if IsBlank(L[k - 1]) then [] else [mk.card(L[k - 1])];
      assert CardsOf(L[m..k], mk.card) == A + P;
      assert (cs + A) + P == cs + (A + P);
      assert !StartsWith(L[k - 1], mk.end);
      if IsBlank(L[k - 1]) {
        assert (cs + A) + P == cs + A;
      }
      assert BlockFrom(L, k - 1, cs + A, mk) == BlockFrom(L, k, (cs + A) + P, mk);
    }
  }

  /** A block whose end marker is at `e` collects the cards of the lines
      before it. */
  lemma BlockRun(L: seq<string>, m: nat, e: nat, cs: seq<string>, mk: Markers)
    requires m <= e < |L| && StartsWith(L[e], mk.end)
    requires forall j :: m <= j < e ==> !StartsWith(L[j], mk.end)
    ensures BlockFrom(L, m, cs, mk) == Some((e, cs + CardsOf(L[m..e], mk.card)))
  {
    BlockPrefix(L, m, e, cs, mk);
  }

  /** A block with no end marker before the end of the listing fails. */
  lemma BlockRunsOff(L: seq<string>, m: nat, cs: seq<string>, mk: Markers)
    requires m <= |L|
    requires forall j :: m <= j < |L| ==> !StartsWith(L[j], mk.end)
    ensures BlockFrom(L, m, cs, mk).None?
  {
    BlockPrefix(L, m, |L|, cs, mk);
  }

  /** Lines without the header pass unchanged. */
  lemma {:induction false} CommandsSkip(L: seq<string>, i: nat, n: nat, cards: Option<seq<string>>, mk: Markers)
    requires i <= n <= |L|
    requires forall j :: i <= j < n ==> !StartsWith(L[j], mk.header)
    ensures CommandsFrom(L, i, cards, mk) == CommandsFrom(L, n, cards, mk)
    decreases n - i
  {
    if i < n {
      CommandsSkip(L, i + 1, n, cards, mk);
    }
  }

  /** Without a header line, `commands` fails. */
  lemma NoHeaderFails(L: seq<string>, mk: Markers)
    requires forall j :: 0 <= j < |L| ==> !StartsWith(L[j], mk.header)
    ensures CommandsOf(L, mk).None?
  {
    CommandsSkip(L, 0, |L|, None, mk);
  }

  /** A header at `h` with no end marker after it makes `commands` fail. */
  lemma UnendedBlockFails(L: seq<string>, h: nat, cards: Option<seq<string>>, mk: Markers)
    requires h < |L| && StartsWith(L[h], mk.header)
    requires forall j :: h < j < |L| ==> !StartsWith(L[j], mk.end)
    ensures CommandsFrom(L, h, cards, mk).None?
  {
    BlockRunsOff(L, h + 1, [], mk);
  }

  /** The last block decides: a header at `h` whose block ends at `e`, with
      no header after `e`, makes the result the cards strictly between the
      two, whatever was collected before. */
  lemma LastBlockWins(L: seq<string>, h: nat, e: nat, cards: Option<seq<string>>, mk: Markers)
    requires h < e < |L| && StartsWith(L[h], mk.header) && StartsWith(L[e], mk.end)
    requires forall j :: h < j < e ==> !StartsWith(L[j], mk.end)
    requires forall j :: e < j < |L| ==> !StartsWith(L[j], mk.header)
    ensures CommandsFrom(L, h, cards, mk) == Some(CardsOf(L[h + 1..e], mk.card))
  {
    BlockRun(L, h + 1, e, [], mk);
    assert [] + CardsOf(L[h + 1..e], mk.card) == CardsOf(L[h + 1..e], mk.card);
    CommandsSkip(L, e + 1, |L|, Some(CardsOf(L[h + 1..e], mk.card)), mk);
  }

  /** A listing with one block: the cards between the header and the end
      marker, the two themselves excluded. */
  lemma OneBlock(L: seq<string>, h: nat, e: nat, mk: Markers)
    requires h < e < |L| && StartsWith(L[h], mk.header) && StartsWith(L[e], mk.end)
    requires forall j :: 0 <= j < h ==> !StartsWith(L[j], mk.header)
    requires forall j :: h < j < e ==> !StartsWith(L[j], mk.end)
    requires forall j :: e < j < |L| ==> !StartsWith(L[j], mk.header)
    ensures CommandsOf(L, mk) == Some(CardsOf(L[h + 1..e], mk.card))
  {
    CommandsSkip(L, 0, h, None, mk);
    LastBlockWins(L, h, e, None, mk);
  }

  /** A listing with two blocks: the second replaces the first. */
  lemma SecondBlockReplaces(L: seq<string>, h1: nat, e1: nat, h2: nat, e2: nat, mk: Markers)
    requires h1 < e1 < h2 < e2 < |L|
    requires StartsWith(L[h1], mk.header) && StartsWith(L[e1], mk.end)
    requires StartsWith(L[h2], mk.header) && StartsWith(L[e2], mk.end)
    requires forall j :: 0 <= j < h1 ==> !StartsWith(L[j], mk.header)
    requires forall j :: h1 < j < e1 ==> !StartsWith(L[j], mk.end)
    requires forall j :: e1 < j < h2 ==> !StartsWith(L[j], mk.header)
    requires forall j :: h2 < j < e2 ==> !StartsWith(L[j], mk.end)
    requires forall j :: e2 < j < |L| ==> !StartsWith(L[j], mk.header)
    ensures CommandsOf(L, mk) == Some(CardsOf(L[h2 + 1..e2], mk.card))
  {
    CommandsSkip(L, 0, h1, None, mk);
    BlockRun(L, h1 + 1, e1, [], mk);
    var first := Some([] + CardsOf(L[h1 + 1..e1], mk.card));
    CommandsSkip(L, e1 + 1, h2, first, mk);
    LastBlockWins(L, h2, e2, first, mk);
  }

  // ---- the class --------------------------------------------------------------

  class LptFile {
    var filename: string
    /** `LPT_SEARCH_PATTERNS`, as its entries in insertion order. */
    var patterns: seq<(string, Pattern)>

    ghost predicate Valid()
      reads this
    {
      KeysDistinct(patterns)
    }

    constructor (filename: string)
      ensures this.filename == filename && patterns == DefaultPatterns()
      ensures Valid()
    {
      this.filename := filename;
      patterns := DefaultPatterns();
      DefaultKeysDistinct();
    }

    /** `register_new_stats`: adds the pattern under `keyName`, or replaces
        the one already there in its place. */
    method RegisterNewStats(keyName: string, startText: string, skippedRows: int, lineFormat: string)
      requires Valid()
      modifies this
      ensures Valid()
      ensures filename == old(filename)
      ensures patterns == Registered(old(patterns), keyName, Pattern(startText, skippedRows, lineFormat))
    {
      RegisteredSpec(patterns, keyName, Pattern(startText, skippedRows, lineFormat));
      patterns := Registered(patterns, keyName, Pattern(startText, skippedRows, lineFormat));
    }

    /** `stats` over the lines `L` of the listing. */
    method Stats<V>(L: seq<string>, ev: Eval<V>) returns (r: Option<map<string, V>>)
      ensures r == StatsOf(L, patterns, ev)
    {
      var stats: map<string, V> := map[];
      for k := 0 to |patterns|
        invariant StatsOf(L, patterns[..k], ev) == Some(stats)
      {
        var key, p := patterns[k].0, patterns[k].1;
        assert patterns[..k + 1][..k] == patterns[..k];
        ghost var stats0 := stats;
        ghost var found: Option<V> := None;
        var i := 0;
        while i < |L|
          invariant PatternWalk(L, i, p, ev, found) == PatternWalk(L, 0, p, ev, None)
          invariant stats == if found.Some? then stats0[key := found.value] else stats0
          decreases |L| - i
        {
          var line := L[i];
          if StartsWith(line, p.startText) {
            ghost var h := i;
            for row := 0 to Skip(p)
              invariant i == h + row < |L| && line == L[i]
            {
              i := i + 1;
              if i >= |L| {
                StatsPrefixFails(L, patterns, k + 1, ev);
                return None;
              }
              line := L[i];
            }
            var v := ev(line, p.lineFormat);
            if v.None? {
              StatsPrefixFails(L, patterns, k + 1, ev);
              return None;
            }
            stats := stats[key := v.value];
            found := v;
          }
          i := i + 1;
        }
      }
      assert patterns[..|patterns|] == patterns;
      r := Some(stats);
    }

    /** `commands` over the lines `L` of the listing. */
    method Commands(L: seq<string>) returns (r: Option<seq<string>>)
      ensures r == CommandsOf(L, Listing)
    {
      r := ReadCommands(L, Listing);
    }
  }


  /** The loops of `commands`. */
  method ReadCommands(L: seq<string>, mk: Markers) returns (r: Option<seq<string>>)
    ensures r == CommandsOf(L, mk)
  {
    var cards: Option<seq<string>> := None;
    var i := 0;
    while i < |L|
      invariant CommandsFrom(L, i, cards, mk) == CommandsOf(L, mk)
      decreases |L| - i
    {
      if StartsWith(L[i], mk.header) {
        ghost var h := i;
        i := i + 1;
        if i >= |L| {
          return None;
        }
        var line := L[i];
        var cs := [];
        while !StartsWith(line, mk.end)
          invariant h < i < |L| && line == L[i]
          invariant BlockFrom(L, i, cs, mk) == BlockFrom(L, h + 1, [], mk)
          decreases |L| - i
        {
          if !IsBlank(line) {
            cs := cs + [mk.card(line)];
          }
          i := i + 1;
          if i >= |L| {
            return None;
          }
          line := L[i];
        }
        cards := Some(cs);
      }
      i := i + 1;
    }
    r := cards;
  }

  /** A failing pattern makes every longer table fail. */
  lemma {:induction false} StatsPrefixFails<V>(L: seq<string>, ps: seq<(string, Pattern)>, k: nat, ev: Eval<V>)
    requires 0 < k <= |ps|
    requires StatsOf(L, ps[..k - 1], ev).Some? && PatternWalk(L, 0, ps[k - 1].1, ev, None).None?
    ensures StatsOf(L, ps, ev).None?
  {
    StatsFails(L, ps, ev);
  }
}
