/** The fixed-width column formatters of the SAMMY input cards (type A text,
    type I integers, type F floats), the Card 2 layout they build, the
    configuration files the cards are read from, and the table of predefined
    alphanumeric commands. */
module CardFormat {
  import opened Text

  // ---- the three field types ------------------------------------------------------

  /** `format_type_A`: `f"{data:<{width}}"`, left-justified, never truncated. */
  function FormatA(data: string, width: nat): (r: string)
    ensures |r| == Max(|data|, width)
    ensures r[..|data|] == data && forall k :: |data| <= k < |r| ==> r[k] == ' '
  {
    LJust(data, width)
  }

  /** `format_type_I`: `f"{data:>{width}d}"`, the decimal text right-justified, never truncated. */
  function FormatI(data: int, width: nat): (r: string)
    ensures |r| == Max(|IntToString(data)|, width)
    ensures r[|r| - |IntToString(data)|..] == IntToString(data)
    ensures forall k :: 0 <= k < |r| - |IntToString(data)| ==> r[k] == ' '
  {
    RJust(IntToString(data), width)
  }

  /** `format_type_F`: a float rendered by `fixed` and right-justified; the
      rendering itself (`.4f`, or `str()` in the older module) is a parameter. */
  function FormatF(data: real, width: nat, fixed: real -> string): (r: string)
    ensures |r| == Max(|fixed(data)|, width)
    ensures r[|r| - |fixed(data)|..] == fixed(data)
  {
    RJust(fixed(data), width)
  }

  /** `int()` reads a type I field back as the integer written into it. */
  lemma FormatIReadsBack(data: int, width: nat)
    ensures ParseInt(FormatI(data, width)) == Some(data)
  {
    ParseIntRJust(IntToString(data), width);
    ParseIntOfIntToString(data);
  }

  /** Stripping a type A field on the right gives back its text, when the
      text itself does not end in whitespace. */
  lemma FormatATrims(data: string, width: nat)
    requires data == [] || !IsSpace(data[|data| - 1])
    ensures TrimEnd(FormatA(data, width)) == data
  {
    var r := FormatA(data, width);
    assert r == data + r[|data|..];
    assert IsBlank(r[|data|..]);
    TrimEndSkips(data, r[|data|..]);
    TrimEndOfNonSpace(data);
  }

  // ---- concatenated fields ----------------------------------------------------------

  function Sum(ws: seq<nat>): nat
    decreases |ws|
  {
    if ws == [] then 0 else ws[0] + Sum(ws[1..])
  }

  /** The first column of field `k` when fields of widths `ws` are concatenated. */
  function Offset(ws: seq<nat>, k: nat): nat
    requires k <= |ws|
  {
    Sum(ws[..k])
  }

  /** Fields of exactly their widths, concatenated, lie side by side: the
      line is as wide as the widths add up to and field `k` occupies its
      own columns. */
  lemma {:induction false} ConcatColumns(xs: seq<string>, ws: seq<nat>)
    requires |xs| == |ws| && forall k :: 0 <= k < |xs| ==> |xs[k]| == ws[k]
    ensures |Concat(xs)| == Sum(ws)
    ensures forall k :: 0 <= k < |xs| ==>
      Offset(ws, k) + ws[k] <= Sum(ws) && Concat(xs)[Offset(ws, k)..Offset(ws, k) + ws[k]] == xs[k]
    decreases |xs|
  {
    if xs != [] {
      ConcatColumns(xs[1..], ws[1..]);
      var rest := Concat(xs[1..]);
      assert Concat(xs) == xs[0] + rest;
      forall k | 0 <= k < |xs|
        ensures Offset(ws, k) + ws[k] <= Sum(ws) && Concat(xs)[Offset(ws, k)..Offset(ws, k) + ws[k]] == xs[k]
      {
        if k == 0 {
          assert ws[..0] == [];
        } else {
          assert ws[..k][1..] == ws[1..][..k - 1];
          assert Offset(ws, k) == ws[0] + Offset(ws[1..], k - 1);
          assert xs[1..][k - 1] == xs[k];
          var o := Offset(ws[1..], k - 1);
          assert Concat(xs)[ws[0] + o..ws[0] + o + ws[k]] == rest[o..o + ws[k]];
        }
      }
    }
  }

  lemma {:induction false} ConcatAppend(xs: seq<string>, x: string)
    ensures Concat(xs + [x]) == Concat(xs) + x
    decreases |xs|
  {
    if xs == [] {
      assert [] + [x] == [x];
    } else {
      assert (xs + [x])[1..] == xs[1..] + [x];
      ConcatAppend(xs[1..], x);
    }
  }

  lemma MulStep(w: nat, k: nat)
    requires k > 0
    ensures w * k == w + w * (k - 1)
  {
  }

  /** Fields all of width `w`, concatenated: field `k` starts at column `w * k`. */
  lemma {:induction false} ConcatUniform(xs: seq<string>, w: nat)
    requires forall k :: 0 <= k < |xs| ==> |xs[k]| == w
    ensures |Concat(xs)| == w * |xs|
    ensures forall k :: 0 <= k < |xs| ==> w * k + w <= |Concat(xs)| && Concat(xs)[w * k..w * k + w] == xs[k]
    decreases |xs|
  {
    if xs != [] {
      ConcatUniform(xs[1..], w);
      var rest := Concat(xs[1..]);
      assert Concat(xs) == xs[0] + rest;
      MulStep(w, |xs|);
      forall k | 0 <= k < |xs| ensures w * k + w <= |Concat(xs)| && Concat(xs)[w * k..w * k + w] == xs[k] {
        if k == 0 {
          assert w * k == 0;
        } else {
          assert xs[1..][k - 1] == xs[k];
          MulStep(w, k);
          var o := w * (k - 1);
          assert o + w <= |rest|;
          assert Concat(xs)[w + o..w + o + w] == rest[o..o + w];
        }
      }
    }
  }

  // ---- card 2 ------------------------------------------------------------------------

  /** The fourteen values of Card 2, in the order they are written. */
  datatype Card2Fields = Card2Fields(
    elmnt: string, aw: real, emin: real, emax: real,
    nepnts: int, itmax: int, icorr: int, nxtra: int, iptdop: int,
    iptwid: int, ixxchn: int, ndigit: int, idropp: int, matnum: int)

  function Card2Widths(): seq<nat> {
    [10, 10, 10, 10, 5, 5, 2, 3, 2, 2, 10, 2, 2, 6]
  }

  function Card2Ints(f: Card2Fields): seq<int> {
    [f.nepnts, f.itmax, f.icorr, f.nxtra, f.iptdop, f.iptwid, f.ixxchn, f.ndigit, f.idropp, f.matnum]
  }

  /** The fourteen formatted fields of Card 2's `__str__`. */
  function Card2Pieces(f: Card2Fields, fixed: real -> string): (ps: seq<string>)
    ensures |ps| == 14
  {
    var ints := Card2Ints(f);
    var ws := Card2Widths();
    [FormatA(f.elmnt, 10), FormatF(f.aw, 10, fixed), FormatF(f.emin, 10, fixed), FormatF(f.emax, 10, fixed)]
    + seq(10, k requires 0 <= k < 10 => FormatI(ints[k], ws[k + 4]))
  }

  /** Card 2's line. */
  function Card2Text(f: Card2Fields, fixed: real -> string): string {
    Concat(Card2Pieces(f, fixed))
  }

  /** Every value fits its field. */
  predicate Card2Fits(f: Card2Fields, fixed: real -> string) {
    && |f.elmnt| <= 10 && |fixed(f.aw)| <= 10 && |fixed(f.emin)| <= 10 && |fixed(f.emax)| <= 10
    && forall k :: 0 <= k < 10 ==> |IntToString(Card2Ints(f)[k])| <= Card2Widths()[k + 4]
  }

  lemma Card2IntPiece(f: Card2Fields, fixed: real -> string, k: nat)
    requires 4 <= k < 14
    ensures Card2Pieces(f, fixed)[k] == FormatI(Card2Ints(f)[k - 4], Card2Widths()[k])
  {
  }

  lemma Card2PieceWidths(f: Card2Fields, fixed: real -> string)
    requires Card2Fits(f, fixed)
    ensures forall k :: 0 <= k < 14 ==> |Card2Pieces(f, fixed)[k]| == Card2Widths()[k]
  {
    forall k | 4 <= k < 14 ensures |Card2Pieces(f, fixed)[k]| == Card2Widths()[k] {
      Card2IntPiece(f, fixed, k);
    }
  }

  lemma Card2WidthSum()
    ensures Sum(Card2Widths()) == 79
  {
    var ws := Card2Widths();
    assert Sum(ws[13..]) == 6;
    assert Sum(ws[12..]) == 8 by { assert ws[12..][1..] == ws[13..]; }
    assert Sum(ws[11..]) == 10 by { assert ws[11..][1..] == ws[12..]; }
    assert Sum(ws[10..]) == 20 by { assert ws[10..][1..] == ws[11..]; }
    assert Sum(ws[9..]) == 22 by { assert ws[9..][1..] == ws[10..]; }
    assert Sum(ws[8..]) == 24 by { assert ws[8..][1..] == ws[9..]; }
    assert Sum(ws[7..]) == 27 by { assert ws[7..][1..] == ws[8..]; }
    assert Sum(ws[6..]) == 29 by { assert ws[6..][1..] == ws[7..]; }
    assert Sum(ws[5..]) == 34 by { assert ws[5..][1..] == ws[6..]; }
    assert Sum(ws[4..]) == 39 by { assert ws[4..][1..] == ws[5..]; }
    assert Sum(ws[3..]) == 49 by { assert ws[3..][1..] == ws[4..]; }
    assert Sum(ws[2..]) == 59 by { assert ws[2..][1..] == ws[3..]; }
    assert Sum(ws[1..]) == 69 by { assert ws[1..][1..] == ws[2..]; }
  }

  /** When every value fits, Card 2 is 79 columns wide and each field sits
      in its own columns. */
  lemma Card2Layout(f: Card2Fields, fixed: real -> string)
    requires Card2Fits(f, fixed)
    ensures |Card2Text(f, fixed)| == 79
    ensures forall k :: 0 <= k < 14 ==>
      var t, ws := Card2Text(f, fixed), Card2Widths();
      Offset(ws, k) + ws[k] <= |t| && t[Offset(ws, k)..Offset(ws, k) + ws[k]] == Card2Pieces(f, fixed)[k]
  {
    Card2PieceWidths(f, fixed);
    Card2WidthSum();
    ConcatWidth(Card2Text(f, fixed), Card2Pieces(f, fixed), Card2Widths(), 79);
  }

  /** `ConcatColumns` for a line `t` already known to be the concatenation. */
  lemma ConcatWidth(t: string, ps: seq<string>, ws: seq<nat>, n: nat)
    requires t == Concat(ps) && Sum(ws) == n
    requires |ps| == |ws| && forall k :: 0 <= k < |ps| ==> |ps[k]| == ws[k]
    ensures |t| == n
    ensures forall k :: 0 <= k < |ps| ==> Offset(ws, k) + ws[k] <= |t| && t[Offset(ws, k)..Offset(ws, k) + ws[k]] == ps[k]
  {
    ConcatColumns(ps, ws);
  }

  /** The element name starts the card. */
  lemma Card2NameFirst(f: Card2Fields, fixed: real -> string)
    requires Card2Fits(f, fixed)
    ensures |f.elmnt| <= |Card2Text(f, fixed)| && Card2Text(f, fixed)[..|f.elmnt|] == f.elmnt
  {
    Card2Layout(f, fixed);
    assert Card2Widths()[..0] == [];
    assert Card2Text(f, fixed)[..10] == FormatA(f.elmnt, 10);
  }

  /** Every integer field, cut out by its columns, reads back as its value. */
  lemma Card2ReadsBack(f: Card2Fields, fixed: real -> string)
    requires Card2Fits(f, fixed)
    ensures forall k :: 4 <= k < 14 ==>
      var t, ws := Card2Text(f, fixed), Card2Widths();
      Offset(ws, k) + ws[k] <= |t| && ParseInt(t[Offset(ws, k)..Offset(ws, k) + ws[k]]) == Some(Card2Ints(f)[k - 4])
  {
    Card2Layout(f, fixed);
    forall k | 4 <= k < 14
      ensures var t, ws := Card2Text(f, fixed), Card2Widths();
        Offset(ws, k) + ws[k] <= |t| && ParseInt(t[Offset(ws, k)..Offset(ws, k) + ws[k]]) == Some(Card2Ints(f)[k - 4])
    {
      Card2IntPiece(f, fixed, k);
      FormatIReadsBack(Card2Ints(f)[k - 4], Card2Widths()[k]);
    }
  }

  // ---- configuration files ---------------------------------------------------------

  /** A configuration file as `configparser` holds it: sections, and in each
      the option names (which it lower-cases) with their text. */
  type Config = map<string, map<string, string>>

  /** `config.get(section, option, fallback=…)`. */
  function ConfigGet(c: Config, section: string, option: string, fallback: string): (r: string)
    ensures section in c && option in c[section] ==> r == c[section][option]
    ensures !(section in c && option in c[section]) ==> r == fallback
  {
    if section in c && option in c[section] then c[section][option] else fallback
  }

  /** `config.getint(section, option, fallback=…)`: `None` where `int()` raises. */
  function ConfigGetInt(c: Config, section: string, option: string, fallback: int): (r: Option<int>)
    ensures !(section in c && option in c[section]) ==> r == Some(fallback)
    ensures section in c && option in c[section] ==> r == ParseInt(c[section][option])
  {
    if section in c && option in c[section] then ParseInt(c[section][option]) else Some(fallback)
  }

  /** `config.getfloat(section, option, fallback=…)`, with `float()` as `parse`. */
  function ConfigGetFloat(c: Config, section: string, option: string, fallback: real, parse: string -> Option<real>): (r: Option<real>)
    ensures !(section in c && option in c[section]) ==> r == Some(fallback)
    ensures section in c && option in c[section] ==> r == parse(c[section][option])
  {
    if section in c && option in c[section] then parse(c[section][option]) else Some(fallback)
  }

  // ---- the predefined alphanumeric commands ------------------------------------------

  /** The keyword each predefined command name expands to: the class
      constants of Card 3, and the same table as `_commands_dict`. */
  function PredefinedCommand(name: string): Option<string> {
    match name
    case "REICH_MOORE_FORM" => Some("REICH-MOORE FORMALISm is wanted")
    case "ORIG_REICH_MOORE_FORM" => Some("ORIGINAL REICH-MOORE formalism")
    case "MULTI_BREIT" => Some("MULTILEVEL BREITWIGner is wanted")
    case "SINGLE_BREIT" => Some("SINGLE LEVEL BREITWigner is wanted")
    case "RED_WIDTH_AMPS" => Some("REDUCED WIDTH AMPLITudes are used for input")
    case "NEW_SPIN_FORMAT" => Some("USE NEW SPIN GROUP Format")
    case "PARTICL_PAIR_DEF" => Some("PARTICLE PAIR DEFINItions are used")
    case "KEY_WORD_PARTICLE_PAIR" => Some("KEY-WORD PARTICLE-PAir definitions are given")
    case "QUANTUM_NUMBERS" => Some("QUANTUM NUMBERS ARE in parameter file")
    case "PUT_QUANTUM_NUMS_IN_PARAM" => Some("PUT QUANTUM NUMBERS into parameter file")
    case "INPUT_ENDF" => Some("INPUT IS ENDF/B FILE")
    case "USE_ENDF_ENERGY" => Some("USE ENERGY RANGE FROm endf/b file")
    case "FLAG_ALL_RES" => Some("FLAG ALL RESONANCE Parameters")
    case "SOLVE_BAYES" => Some("SOLVE BAYES EQUATIONs")
    case "NO_SOLVE_BAYES" => Some("DO NOT SOLVE BAYES EQUATIONS")
    case "TWENTY" => Some("USE TWENTY SIGNIFICAnt digits")
    case "BROADENING" => Some("BROADENING IS WANTED")
    case "CHI_SQUARED" => Some("CHI SQUARED IS WANTEd")
    case "NO_CHI_SQUARED" => Some("CHI SQUARED IS NOT Wanted")
    case _ => None
  }
}
