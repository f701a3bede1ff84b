/** Nuclear data lookups: the spin and abundance of an isotope from the
    isotope table, and the atomic mass of an isotope from the AME mass
    evaluation, a fixed-column text table. The files are given as their
    lines; the floating-point columns of the mass table are read by a
    parameter. */
module NucData {
  import opened Text

  // ---- get_info ---------------------------------------------------------------------

  /** The characters of `s` that satisfy `p`, in order. */
  function Keep(s: string, p: char -> bool): (r: string)
    ensures |r| <= |s|
    ensures forall k :: 0 <= k < |r| ==> p(r[k])
    ensures r == [] <==> forall k :: 0 <= k < |s| ==> !p(s[k])
    decreases |s|
  {
    if s == [] then []
    else
      var init := s[..|s| - 1];
      assert forall k :: 0 <= k < |init| ==> init[k] == s[k];
      Keep(init, p) + (if p(s[|s| - 1]) then [s[|s| - 1]] else [])
  }

  lemma {:induction false} KeepAppend(a: string, b: string, p: char -> bool)
    ensures Keep(a + b, p) == Keep(a, p) + Keep(b, p)
    decreases |b|
  {
    if b == [] {
      assert a + b == a;
    } else {
      var init := b[..|b| - 1];
      assert (a + b)[..|a + b| - 1] == a + init;
      KeepAppend(a, init, p);
    }
  }

  lemma KeepSnoc(s: string, c: char, p: char -> bool)
    ensures Keep(s + [c], p) == Keep(s, p) + (if p(c) then [c] else [])
  {
    assert (s + [c])[..|s|] == s;
  }

  lemma {:induction false} KeepAll(s: string, p: char -> bool)
    requires forall k :: 0 <= k < |s| ==> p(s[k])
    ensures Keep(s, p) == s
    decreases |s|
  {
    if s != [] {
      var init, last := s[..|s| - 1], s[|s| - 1];
      assert init + [last] == s;
      KeepSnoc(init, last, p);
      assert forall k :: 0 <= k < |init| ==> p(init[k]) by {
        assert forall k :: 0 <= k < |init| ==> init[k] == s[k];
      }
      KeepAll(init, p);
    }
  }

  predicate NotDigit(c: char) { !IsDigit(c) }

  /** `get_info`: the element is every character that is not a digit, the
      nucleon number the digits read as one number; with no digit at all
      `int('')` raises, modelled as `None`. */
  function GetInfo(isotope: string): (r: Option<(string, nat)>)
    ensures r.Some? <==> exists k :: 0 <= k < |isotope| && IsDigit(isotope[k])
    ensures r.Some? ==> forall k :: 0 <= k < |r.value.0| ==> !IsDigit(r.value.0[k])
  {
    var digits := Keep(isotope, IsDigit);
    if digits == [] then None else Some((Keep(isotope, NotDigit), DigitsValue(digits)))
  }

  /** A character of an element symbol: neither a digit nor the hyphen that
      separates the symbol from the nucleon number. */
  predicate SymbolChar(c: char) { !IsDigit(c) && c != '-' }

  /** `get_info` as its callers need it: the hyphen is not part of the element. */
  function GetInfoFixed(isotope: string): (r: Option<(string, nat)>)
    ensures r.Some? <==> exists k :: 0 <= k < |isotope| && IsDigit(isotope[k])
    ensures r.Some? ==> forall k :: 0 <= k < |r.value.0| ==> SymbolChar(r.value.0[k])
  {
    var digits := Keep(isotope, IsDigit);
    if digits == [] then None else Some((Keep(isotope, SymbolChar), DigitsValue(digits)))
  }

  lemma KeepDigitsOfNumber(n: nat)
    ensures Keep(NatToString(n), IsDigit) == NatToString(n)
    ensures Keep(NatToString(n), NotDigit) == []
    ensures Keep(NatToString(n), SymbolChar) == []
  {
    KeepAll(NatToString(n), IsDigit);
  }

  /** As written, the element read from "X-N" keeps the hyphen. */
  lemma GetInfoOfSymbol(e: string, n: nat)
    requires forall k :: 0 <= k < |e| ==> !IsDigit(e[k])
    ensures GetInfo(e + "-" + NatToString(n)) == Some((e + "-", n))
  {
    var d := NatToString(n);
    var s := e + "-" + d;
    KeepDigitsOfNumber(n);
    DigitsValueOfNatToString(n);
    assert Keep(s, IsDigit) == d by {
      KeepAppend(e, "-", IsDigit);
      KeepAppend(e + "-", d, IsDigit);
      assert Keep(e, IsDigit) == [];
      assert Keep("-", IsDigit) == [];
    }
    assert Keep(s, NotDigit) == e + "-" by {
      KeepAppend(e, "-", NotDigit);
      KeepAppend(e + "-", d, NotDigit);
      KeepAll(e, NotDigit);
      KeepAll("-", NotDigit);
    }
  }

  /** Corrected, "X-N" reads back as the element X and the nucleon number N. */
  lemma GetInfoFixedOfSymbol(e: string, n: nat)
    requires forall k :: 0 <= k < |e| ==> SymbolChar(e[k])
    ensures GetInfoFixed(e + "-" + NatToString(n)) == Some((e, n))
  {
    var d := NatToString(n);
    var s := e + "-" + d;
    KeepDigitsOfNumber(n);
    DigitsValueOfNatToString(n);
    assert Keep(s, IsDigit) == d by {
      KeepAppend(e, "-", IsDigit);
      KeepAppend(e + "-", d, IsDigit);
      assert Keep(e, IsDigit) == [];
      assert Keep("-", IsDigit) == [];
    }
    assert Keep(s, SymbolChar) == e by {
      KeepAppend(e, "-", SymbolChar);
      KeepAppend(e + "-", d, SymbolChar);
      KeepAll(e, SymbolChar);
      assert Keep("-", SymbolChar) == [];
      assert e + [] + [] == e;
    }
  }

  /** The isotope the tests look up: "U-238" gives the element "U-" as written, "U" corrected. */
  lemma UraniumText()
    ensures "U-238" == "U" + "-" + NatToString(238)
  {
    assert NatToString(2) == "2";
    assert NatToString(23) == "23";
    assert NatToString(238) == "238";
  }

  lemma UraniumInfo()
    ensures GetInfo("U-238") == Some(("U-", 238))
    ensures GetInfoFixed("U-238") == Some(("U", 238))
  {
    UraniumText();
    assert "U" + "-" == "U-";
    GetInfoOfSymbol("U", 238);
    GetInfoFixedOfSymbol("U", 238);
  }

  // ---- parse_ame_line ---------------------------------------------------------------

  /** `safe_int`: a blank field reads as 0, anything else as `int()` reads it. */
  function SafeInt(field: string): (r: Option<int>)
    ensures IsBlank(field) ==> r == Some(0)
  {
    if Strip(field) == [] then Some(0) else ParseInt(field)
  }

  lemma IntToStringStrips(x: int)
    ensures IntToString(x) != [] && Strip(IntToString(x)) == IntToString(x)
  {
    var s := IntToString(x);
    assert !IsSpace(s[0]) && !IsSpace(s[|s| - 1]);
    StripOfNoSpaceEnds(s);
  }

  /** A number right-justified in its column reads back as that number. */
  lemma SafeIntOfColumn(x: int, w: int)
    ensures SafeInt(RJust(IntToString(x), w)) == Some(x)
  {
    var s := IntToString(x);
    IntToStringStrips(x);
    if |s| < w {
      StripPadded(Spaces(w - |s|), s, []);
      assert Spaces(w - |s|) + s + [] == RJust(s, w);
    } else {
      assert RJust(s, w) == s;
    }
    ParseIntRJust(s, w);
    ParseIntOfIntToString(x);
  }

  /** The integer and text columns of one AME line, and what the
      floating-point columns give for the atomic mass. */
  datatype AmeLine<M> = AmeLine(cc: char, nz: int, n: int, z: int, a: int,
                                el: string, o: string, b: string, atomicMass: M)

  /** `parse_ame_line`: each column cut out at its fixed position (short
      lines give short or empty fields); an empty line has no `cc` and a
      non-numeric integer column raises, both modelled as `None`.
      `masses` reads the floating-point columns and is `None` where one of
      them raises. */
  function ParseAmeLine<M>(line: string, masses: string -> Option<M>): (r: Option<AmeLine<M>>)
    ensures r.Some? <==>
      && line != []
      && SafeInt(Slice(line, 2, 5)).Some? && SafeInt(Slice(line, 5, 9)).Some?
      && SafeInt(Slice(line, 9, 14)).Some? && SafeInt(Slice(line, 14, 19)).Some?
      && masses(line).Some?
    ensures r.Some? ==> r.value.cc == line[0] && r.value.el == Strip(Slice(line, 20, 23))
  {
    if line == [] then None
    else
      var nz, n, z, a := SafeInt(Slice(line, 2, 5)), SafeInt(Slice(line, 5, 9)),
                         SafeInt(Slice(line, 9, 14)), SafeInt(Slice(line, 14, 19));
      var m := masses(line);
      if nz.None? || n.None? || z.None? || a.None? || m.None? then None
      else
        Some(AmeLine(line[0], nz.value, n.value, z.value, a.value,
                     Strip(Slice(line, 20, 23)), Strip(Slice(line, 23, 27)), Strip(Slice(line, 79, 81)),
                     m.value))
  }

  /** An AME line laid out the way the table writes one: `cc`, a blank, the
      four integers right-justified to columns 2-4, 5-8, 9-13 and 14-18, a
      blank, the element in 20-22 and the origin in 23-26, the 52 columns
      `mid` of mass and binding data, `b` in 79-80 and the rest of the line. */
  function AmeText(cc: char, nz: int, n: int, z: int, a: int, el: string, o: string,
                   mid: string, b: string, tail: string): string
  {
    [cc] + " " + RJust(IntToString(nz), 3) + RJust(IntToString(n), 4) + RJust(IntToString(z), 5)
    + RJust(IntToString(a), 5) + " " + LJust(el, 3) + LJust(o, 4) + mid + LJust(b, 2) + tail
  }

  /** Text that has no blanks at its ends reads back from a left-justified column. */
  lemma StripOfLJust(s: string, w: int)
    requires Strip(s) == s
    ensures Strip(LJust(s, w)) == s
  {
    LJustPads(s, w);
    StripPadded([], s, Spaces(Max(|s|, w) - |s|));
    assert [] + s + Spaces(Max(|s|, w) - |s|) == LJust(s, w);
  }

  /** Fields of the AME widths, side by side, are cut back out at the AME columns. */
  lemma AmeColumns(cc: char, p0: string, p1: string, p2: string, p3: string, p4: string, p5: string,
                   mid: string, p6: string, tail: string)
    requires |p0| == 3 && |p1| == 4 && |p2| == 5 && |p3| == 5 && |p4| == 3 && |p5| == 4
    requires |mid| == 52 && |p6| == 2
    ensures var line := [cc] + " " + p0 + p1 + p2 + p3 + " " + p4 + p5 + mid + p6 + tail;
      && line != [] && line[0] == cc
      && Slice(line, 2, 5) == p0 && Slice(line, 5, 9) == p1 && Slice(line, 9, 14) == p2
      && Slice(line, 14, 19) == p3 && Slice(line, 20, 23) == p4 && Slice(line, 23, 27) == p5
      && Slice(line, 79, 81) == p6
  {
    var head := [cc] + " " + p0 + p1 + p2 + p3 + " ";
    var line := head + p4 + p5 + mid + p6 + tail;
    assert |head| == 20;
    assert line[0] == head[0];
    assert line[2..5] == head[2..5];
    assert line[5..9] == head[5..9];
    assert line[9..14] == head[9..14];
    assert line[14..19] == head[14..19];
  }

  lemma ParseAmeOfFields<M>(line: string, masses: string -> Option<M>, cc: char, nz: int, n: int, z: int, a: int,
                            el: string, o: string, b: string)
    requires line != [] && line[0] == cc && masses(line).Some?
    requires SafeInt(Slice(line, 2, 5)) == Some(nz) && SafeInt(Slice(line, 5, 9)) == Some(n)
    requires SafeInt(Slice(line, 9, 14)) == Some(z) && SafeInt(Slice(line, 14, 19)) == Some(a)
    requires Strip(Slice(line, 20, 23)) == el && Strip(Slice(line, 23, 27)) == o && Strip(Slice(line, 79, 81)) == b
    ensures ParseAmeLine(line, masses) == Some(AmeLine(cc, nz, n, z, a, el, o, b, masses(line).value))
  {
  }

  /** Reading a laid-out AME line gives back every integer and text field. */
  lemma ParseAmeText<M>(cc: char, nz: int, n: int, z: int, a: int, el: string, o: string,
                        mid: string, b: string, tail: string, masses: string -> Option<M>)
    requires |IntToString(nz)| <= 3 && |IntToString(n)| <= 4 && |IntToString(z)| <= 5 && |IntToString(a)| <= 5
    requires |el| <= 3 && Strip(el) == el && |o| <= 4 && Strip(o) == o
    requires |mid| == 52 && |b| <= 2 && Strip(b) == b
    requires masses(AmeText(cc, nz, n, z, a, el, o, mid, b, tail)).Some?
    ensures var line := AmeText(cc, nz, n, z, a, el, o, mid, b, tail);
      ParseAmeLine(line, masses) == Some(AmeLine(cc, nz, n, z, a, el, o, b, masses(line).value))
  {
    var line := AmeText(cc, nz, n, z, a, el, o, mid, b, tail);
    var p0, p1, p2 := RJust(IntToString(nz), 3), RJust(IntToString(n), 4), RJust(IntToString(z), 5);
    var p3, p4, p5, p6 := RJust(IntToString(a), 5), LJust(el, 3), LJust(o, 4), LJust(b, 2);
    AmeColumns(cc, p0, p1, p2, p3, p4, p5, mid, p6, tail);
    SafeIntOfColumn(nz, 3);
    SafeIntOfColumn(n, 4);
    SafeIntOfColumn(z, 5);
    SafeIntOfColumn(a, 5);
    StripOfLJust(el, 3);
    StripOfLJust(o, 4);
    StripOfLJust(b, 2);
    ParseAmeOfFields(line, masses, cc, nz, n, z, a, el, o, b);
  }

  // ---- get_mass_from_ame ------------------------------------------------------------

  /** The header lines of the mass table skipped before the search. */
  function HeaderLines(): nat { 36 }

  /** `element in line[:25] and str(atomic_number) in line[:25]`. */
  predicate IsCandidate(line: string, element: string, number: nat) {
    Contains(Slice(line, 0, 25), element) && Contains(Slice(line, 0, 25), NatToString(number))
  }

  function CandidateTest(element: string, number: nat): string -> bool {
    line => IsCandidate(line, element, number)
  }

  /** The lines that pass `keep`, in file order. */
  function Filter(lines: seq<string>, keep: string -> bool): (r: seq<string>)
    ensures forall k :: 0 <= k < |r| ==> r[k] in lines && keep(r[k])
    ensures forall k :: 0 <= k < |lines| && keep(lines[k]) ==> lines[k] in r
  {
    if lines == [] then []
    else
      var init, last := lines[..|lines| - 1], lines[|lines| - 1];
      assert forall k :: 0 <= k < |init| ==> init[k] == lines[k];
      Filter(init, keep) + (if keep(last) then [last] else [])
  }

  /** `parse_ame_line` with the floating-point columns read by `masses`. */
  function AmeParser<M>(masses: string -> Option<M>): string -> Option<AmeLine<M>> {
    line => ParseAmeLine(line, masses)
  }

  predicate Matches<M>(iso: AmeLine<M>, element: string, number: nat) {
    iso.el == element && iso.a == number
  }

  /** The atomic mass of the last parsed line that matches; later matches
      overwrite earlier ones, and with none the result is unbound. */
  function LastMatch<M>(isos: seq<AmeLine<M>>, element: string, number: nat): (r: Option<M>)
    ensures r.Some? <==> exists k :: 0 <= k < |isos| && Matches(isos[k], element, number)
    ensures r.Some? ==>
      exists k :: 0 <= k < |isos| && Matches(isos[k], element, number) &&
        r.value == isos[k].atomicMass && forall j :: k < j < |isos| ==> !Matches(isos[j], element, number)
  {
    if isos == [] then None
    else
      var init, last := isos[..|isos| - 1], isos[|isos| - 1];
      assert forall k :: 0 <= k < |init| ==> init[k] == isos[k];
      if Matches(last, element, number) then
        assert Matches(isos[|isos| - 1], element, number);
        Some(last.atomicMass)
      else
        var r := LastMatch(init, element, number);
        if r.Some? then
          assert exists k :: 0 <= k < |isos| && Matches(isos[k], element, number) &&
                             r.value == isos[k].atomicMass &&
                             forall j :: k < j < |isos| ==> !Matches(isos[j], element, number) by {
            var k :| 0 <= k < |init| && Matches(init[k], element, number) &&
              r.value == init[k].atomicMass && forall j :: k < j < |init| ==> !Matches(init[j], element, number);
            assert isos[k] == init[k];
          }
          r
        else
          assert forall k :: 0 <= k < |isos| ==> !Matches(isos[k], element, number) by {
            forall k | 0 <= k < |isos| ensures !Matches(isos[k], element, number) {
              if k < |init| {
                assert isos[k] == init[k];
              }
            }
          }
          r
  }

  /** The search over the lines after the header, with `keep` choosing the
      candidates and `parse` reading them. */
  function Search<M>(element: string, number: nat, body: seq<string>, keep: string -> bool,
                     parse: string -> Option<AmeLine<M>>): Option<M> {
    match ParseAll(Filter(body, keep), parse)
    case None => None
    case Some(isos) => LastMatch(isos, element, number)
  }

  /** `get_mass_from_ame` once the element and number are known, with
      `parse` reading one line: fewer than 36 lines make `next` raise, a
      candidate that does not parse raises, and with no match the result is
      unbound; all of these are `None`. */
  function MassFromLines<M>(element: string, number: nat, lines: seq<string>,
                            parse: string -> Option<AmeLine<M>>): Option<M> {
    if |lines| < HeaderLines() then None
    else Search(element, number, lines[HeaderLines()..], CandidateTest(element, number), parse)
  }

  /** `get_mass_from_ame` as written: the element comes from `get_info`. */
  function MassFromAme<M>(isotope: string, lines: seq<string>, masses: string -> Option<M>): Option<M> {
    match GetInfo(isotope)
    case None => None
    case Some(info) => MassFromLines(info.0, info.1, lines, AmeParser(masses))
  }

  /** `get_mass_from_ame` with the element the table names. */
  function MassFromAmeFixed<M>(isotope: string, lines: seq<string>, masses: string -> Option<M>): Option<M> {
    match GetInfoFixed(isotope)
    case None => None
    case Some(info) => MassFromLines(info.0, info.1, lines, AmeParser(masses))
  }

  /** Line `line` is a candidate that reads as a match. */
  predicate MatchingLine<M>(line: string, element: string, number: nat, keep: string -> bool,
                            parse: string -> Option<AmeLine<M>>) {
    keep(line) && parse(line).Some? && Matches(parse(line).value, element, number)
  }

  /** A found mass comes from a matching line. */
  lemma SearchFoundHasMatch<M>(element: string, number: nat, body: seq<string>, keep: string -> bool,
                               parse: string -> Option<AmeLine<M>>)
    requires Search(element, number, body, keep, parse).Some?
    ensures exists i :: 0 <= i < |body| && MatchingLine(body[i], element, number, keep, parse)
  {
    var cs := Filter(body, keep);
    var isos := ParseAll(cs, parse).value;
    var j :| 0 <= j < |isos| && Matches(isos[j], element, number);
    assert parse(cs[j]) == Some(isos[j]);
    assert cs[j] in body;
    var i :| 0 <= i < |body| && body[i] == cs[j];
    assert MatchingLine(body[i], element, number, keep, parse);
  }

  /** A matching line is found, once every candidate parses. */
  lemma SearchMatchIsFound<M>(element: string, number: nat, body: seq<string>, keep: string -> bool,
                              parse: string -> Option<AmeLine<M>>, i: nat)
    requires ParseAll(Filter(body, keep), parse).Some?
    requires i < |body| && MatchingLine(body[i], element, number, keep, parse)
    ensures Search(element, number, body, keep, parse).Some?
  {
    var cs := Filter(body, keep);
    var j := FilterIndex(body, keep, i);
    ParsedMatchFound(cs, parse, j, element, number);
  }

  /** A kept line has a place among the candidates. */
  lemma FilterIndex(lines: seq<string>, keep: string -> bool, i: nat) returns (j: nat)
    requires i < |lines| && keep(lines[i])
    ensures j < |Filter(lines, keep)| && Filter(lines, keep)[j] == lines[i]
  {
    var r := Filter(lines, keep);
    assert lines[i] in r;
    j :| 0 <= j < |r| && r[j] == lines[i];
  }

  /** A parsed candidate that matches gives the last match a value. */
  lemma ParsedMatchFound<M>(cs: seq<string>, parse: string -> Option<AmeLine<M>>, j: nat, element: string, number: nat)
    requires ParseAll(cs, parse).Some?
    requires j < |cs| && parse(cs[j]).Some? && Matches(parse(cs[j]).value, element, number)
    ensures LastMatch(ParseAll(cs, parse).value, element, number).Some?
  {
    var isos := ParseAll(cs, parse).value;
    assert parse(cs[j]) == Some(isos[j]);
    assert Matches(isos[j], element, number);
  }

  /** The search finds a mass exactly when every candidate parses and
      some line is a candidate that matches. */
  lemma SearchFound<M>(element: string, number: nat, body: seq<string>, keep: string -> bool,
                       parse: string -> Option<AmeLine<M>>)
    ensures Search(element, number, body, keep, parse).Some? <==>
      && ParseAll(Filter(body, keep), parse).Some?
      && exists i :: 0 <= i < |body| && MatchingLine(body[i], element, number, keep, parse)
  {
    if Search(element, number, body, keep, parse).Some? {
      SearchFoundHasMatch(element, number, body, keep, parse);
    }
    if ParseAll(Filter(body, keep), parse).Some? &&
       exists i :: 0 <= i < |body| && MatchingLine(body[i], element, number, keep, parse) {
      var i :| 0 <= i < |body| && MatchingLine(body[i], element, number, keep, parse);
      SearchMatchIsFound(element, number, body, keep, parse, i);
    }
  }

  /** A stripped column has no character its column does not have. */
  lemma StripWithout(s: string, c: char)
    requires c !in s
    ensures c !in Strip(s)
  {
    var t := TrimStart(s);
    assert c !in t by { assert t == s[|s| - |t|..]; }
    var u := TrimEnd(t);
    assert u == t[..|u|];
  }

  /** As written the search never succeeds for "X-N": no element column of
      the table holds the hyphen the element keeps. */
  lemma MassFromAmeMisses<M>(e: string, n: nat, lines: seq<string>, masses: string -> Option<M>)
    requires forall k :: 0 <= k < |lines| ==> '-' !in Slice(lines[k], 20, 23)
    requires forall k :: 0 <= k < |e| ==> !IsDigit(e[k])
    ensures MassFromAme(e + "-" + NatToString(n), lines, masses) == None
  {
    GetInfoOfSymbol(e, n);
    var element := e + "-";
    assert element[|e|] == '-';
    HyphenElementMisses(element, n, lines, masses);
  }

  /** No table line without hyphens in its element columns matches an
      element that holds one. */
  lemma HyphenElementMisses<M>(element: string, n: nat, lines: seq<string>, masses: string -> Option<M>)
    requires forall k :: 0 <= k < |lines| ==> '-' !in Slice(lines[k], 20, 23)
    requires '-' in element
    ensures MassFromLines(element, n, lines, AmeParser(masses)) == None
  {
    var parse, keep := AmeParser(masses), CandidateTest(element, n);
    if |lines| >= HeaderLines() {
      var body := lines[HeaderLines()..];
      forall i | 0 <= i < |body| ensures !MatchingLine(body[i], element, n, keep, parse) {
        assert body[i] == lines[HeaderLines() + i];
        HyphenLineMisses(body[i], element, n, keep, masses);
      }
      SearchFound(element, n, body, keep, parse);
    }
  }

  /** A line without a hyphen in its element columns names no element that has one. */
  lemma HyphenLineMisses<M>(line: string, element: string, n: nat, keep: string -> bool, masses: string -> Option<M>)
    requires '-' !in Slice(line, 20, 23) && '-' in element
    ensures !MatchingLine(line, element, n, keep, AmeParser(masses))
  {
    var iso := ParseAmeLine(line, masses);
    if iso.Some? {
      StripWithout(Slice(line, 20, 23), '-');
      assert '-' !in iso.value.el;
    }
  }

  /** Corrected, "X-N" searches for the element X itself. */
  lemma MassFromAmeFixedSearches<M>(e: string, n: nat, lines: seq<string>, masses: string -> Option<M>)
    requires forall k :: 0 <= k < |e| ==> SymbolChar(e[k])
    ensures MassFromAmeFixed(e + "-" + NatToString(n), lines, masses) == MassFromLines(e, n, lines, AmeParser(masses))
  {
    GetInfoFixedOfSymbol(e, n);
  }

  lemma FilterStep(lines: seq<string>, i: nat, keep: string -> bool)
    requires i < |lines|
    ensures Filter(lines[..i + 1], keep) == Filter(lines[..i], keep) + (if keep(lines[i]) then [lines[i]] else [])
  {
    assert lines[..i + 1][..i] == lines[..i];
  }

  /** Once a candidate has raised, the whole scan raises. */
  lemma {:induction false} NoneStaysNone<T>(body: seq<string>, i: nat, keep: string -> bool, parse: string -> Option<T>)
    requires i <= |body| && ParseAll(Filter(body[..i], keep), parse).None?
    ensures ParseAll(Filter(body, keep), parse).None?
    decreases |body| - i
  {
    if i < |body| {
      var cs := Filter(body[..i], keep);
      FilterStep(body, i, keep);
      if keep(body[i]) {
        ParseAllStep(cs, body[i], parse);
      } else {
        assert cs + [] == cs;
      }
      NoneStaysNone(body, i + 1, keep, parse);
    } else {
      assert body[..i] == body;
    }
  }

  /** The two passes of `get_mass_from_ame` over the lines after the header:
      the candidate scan, each candidate parsed as it is found, then the pass
      over the candidates in which a later match overwrites an earlier one. */
  method SearchBody<M>(element: string, number: nat, body: seq<string>, keep: string -> bool,
                       parse: string -> Option<AmeLine<M>>) returns (r: Option<M>)
    ensures r == Search(element, number, body, keep, parse)
  {
    var isos: seq<AmeLine<M>> := [];
    for i := 0 to |body|
      invariant ParseAll(Filter(body[..i], keep), parse) == Some(isos)
    {
      var cs := Filter(body[..i], keep);
      FilterStep(body, i, keep);
      if keep(body[i]) {
        var iso := parse(body[i]);
        ParseAllStep(cs, body[i], parse);
        if iso.None? {
          NoneStaysNone(body, i + 1, keep, parse);
          return None;
        }
        isos := isos + [iso.value];
      } else {
        assert cs + [] == cs;
      }
    }
    assert body[..|body|] == body;
    r := None;
    for j := 0 to |isos|
      invariant r == LastMatch(isos[..j], element, number)
    {
      assert isos[..j + 1][..j] == isos[..j];
      if Matches(isos[j], element, number) {
        r := Some(isos[j].atomicMass);
      }
    }
    assert isos[..|isos|] == isos;
  }

  /** `get_mass_from_ame`, with the element read as the table names it. */
  method GetMassFromAme<M>(isotope: string, lines: seq<string>, masses: string -> Option<M>) returns (r: Option<M>)
    ensures r == MassFromAmeFixed(isotope, lines, masses)
  {
    var info := GetInfoFixed(isotope);
    if info.None? || |lines| < HeaderLines() {
      return None;
    }
    var element, number := info.value.0, info.value.1;
    r := SearchBody(element, number, lines[HeaderLines()..], CandidateTest(element, number), AmeParser(masses));
  }

  // ---- extract_isotope_info ---------------------------------------------------------

  /** What one line of the isotope table contributes: a line that, stripped,
      starts with a digit is a data row whose fourth and second words name
      the isotope; a row with too few words raises an `IndexError`. */
  datatype Row = Skip | Hit(spin: string, abundance: string) | Short

  function RowOf(line: string, isotope: string): Row {
    var l := Strip(line);
    if l != [] && IsDigit(l[0]) then
      var data := Words(l);
      if |data| < 4 then Short
      else if isotope == data[3] + "-" + data[1] then
        if |data| < 8 then Short else Hit(data[5], data[7])
      else Skip
    else Skip
  }

  function RowReader(isotope: string): string -> Row {
    line => RowOf(line, isotope)
  }

  /** The outcome of `extract_isotope_info`: the spin and abundance, the
      pair `(None, None)`, or an `IndexError`. */
  datatype Info = Found(spin: string, abundance: string) | NotFound | Raises

  /** The first line that is not skipped decides. */
  function FirstRow(lines: seq<string>, row: string -> Row): (r: Info)
    ensures r.NotFound? <==> forall k :: 0 <= k < |lines| ==> row(lines[k]).Skip?
    ensures r.Found? ==>
      exists k :: 0 <= k < |lines| && row(lines[k]) == Hit(r.spin, r.abundance) &&
        forall j :: 0 <= j < k ==> row(lines[j]).Skip?
    ensures r.Raises? ==>
      exists k :: 0 <= k < |lines| && row(lines[k]).Short? &&
        forall j :: 0 <= j < k ==> row(lines[j]).Skip?
  {
    if lines == [] then NotFound
    else
      var rest := lines[1..];
      assert forall k :: 0 <= k < |rest| ==> rest[k] == lines[k + 1];
      match row(lines[0])
      case Skip =>
        var r := FirstRow(rest, row);
        if r.Found? then
          var k :| 0 <= k < |rest| && row(rest[k]) == Hit(r.spin, r.abundance) && forall j :: 0 <= j < k ==> row(rest[j]).Skip?;
          assert row(lines[k + 1]) == Hit(r.spin, r.abundance);
          r
        else if r.Raises? then
          var k :| 0 <= k < |rest| && row(rest[k]).Short? && forall j :: 0 <= j < k ==> row(rest[j]).Skip?;
          assert row(lines[k + 1]).Short?;
          r
        else r
      case Hit(s, a) => Found(s, a)
      case Short => Raises
  }

  /** `extract_isotope_info` on the lines of the isotope table. */
  function IsotopeInfo(lines: seq<string>, isotope: string): Info {
    FirstRow(lines, RowReader(isotope))
  }

  /** `extract_isotope_info`: the scan over the lines that returns at the first match. */
  method ExtractIsotopeInfo(lines: seq<string>, isotope: string) returns (r: Info)
    ensures r == IsotopeInfo(lines, isotope)
  {
    var row := RowReader(isotope);
    var i := 0;
    while i < |lines|
      invariant i <= |lines|
      invariant FirstRow(lines[i..], row) == FirstRow(lines, row)
    {
      assert lines[i..][1..] == lines[i + 1..];
      var x := RowOf(lines[i], isotope);
      if x.Hit? {
        return Found(x.spin, x.abundance);
      } else if x.Short? {
        return Raises;
      }
      i := i + 1;
    }
    return NotFound;
  }
}
