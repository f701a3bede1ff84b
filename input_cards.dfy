/** The cards of a SAMMY input file as `InputFile` builds them: each card
    is an object whose attributes are set or read from a configuration
    file, and whose text is its columns laid side by side. */
module InputCards {
  import opened Text
  import opened CardFormat

  /** `InputFile.MAX_COLUMNS`. */
  function MaxColumns(): nat { 80 }

  // ---- Card 1 ---------------------------------------------------------------------

  class Card1 {
    var title: string

    constructor()
      ensures title == "Blank Sammy Input File Title"
    {
      title := "Blank Sammy Input File Title";
    }

    /** `Card1(config_file)`: the title from section `Card1`, else the default. */
    constructor FromConfig(c: Config)
      ensures title == ConfigGet(c, "Card1", "title", "Blank Sammy Input File Title")
    {
      title := ConfigGet(c, "Card1", "title", "Blank Sammy Input File Title");
    }

    method Set(t: string)
      modifies this
      ensures title == t
    {
      title := t;
    }

    /** The title left-justified to the full 80 columns. */
    function Str(): (r: string)
      reads this
      ensures |title| <= MaxColumns() ==> |r| == MaxColumns()
      ensures |r| >= |title| && r[..|title|] == title
      ensures forall k :: |title| <= k < |r| ==> r[k] == ' '
    {
      FormatA(title, MaxColumns())
    }
  }

  // ---- Card 2 ---------------------------------------------------------------------

  /** `value` if it is given, else `current`. */
  function Given<T>(value: Option<T>, current: T): T {
    if value.Some? then value.value else current
  }

  /** `Card2.set(...)` on the attribute values: each argument that is given
      replaces its attribute, each one left `None` leaves it alone. */
  function Card2Set(f: Card2Fields, elmnt': Option<string>, aw': Option<real>, emin': Option<real>, emax': Option<real>,
                   nepnts': Option<int>, itmax': Option<int>, icorr': Option<int>, nxtra': Option<int>,
                   iptdop': Option<int>, iptwid': Option<int>, ixxchn': Option<int>, ndigit': Option<int>,
                   idropp': Option<int>, matnum': Option<int>): (r: Card2Fields)
    ensures r.elmnt == (if elmnt'.Some? then elmnt'.value else f.elmnt)
    ensures r.aw == (if aw'.Some? then aw'.value else f.aw)
    ensures r.emin == (if emin'.Some? then emin'.value else f.emin)
    ensures r.emax == (if emax'.Some? then emax'.value else f.emax)
    ensures r.nepnts == (if nepnts'.Some? then nepnts'.value else f.nepnts)
    ensures r.itmax == (if itmax'.Some? then itmax'.value else f.itmax)
    ensures r.icorr == (if icorr'.Some? then icorr'.value else f.icorr)
    ensures r.nxtra == (if nxtra'.Some? then nxtra'.value else f.nxtra)
    ensures r.iptdop == (if iptdop'.Some? then iptdop'.value else f.iptdop)
    ensures r.iptwid == (if iptwid'.Some? then iptwid'.value else f.iptwid)
    ensures r.ixxchn == (if ixxchn'.Some? then ixxchn'.value else f.ixxchn)
    ensures r.ndigit == (if ndigit'.Some? then ndigit'.value else f.ndigit)
    ensures r.idropp == (if idropp'.Some? then idropp'.value else f.idropp)
    ensures r.matnum == (if matnum'.Some? then matnum'.value else f.matnum)
  {
    Card2Fields(
      Given(elmnt', f.elmnt), Given(aw', f.aw), Given(emin', f.emin), Given(emax', f.emax),
      Given(nepnts', f.nepnts), Given(itmax', f.itmax), Given(icorr', f.icorr), Given(nxtra', f.nxtra),
      Given(iptdop', f.iptdop), Given(iptwid', f.iptwid), Given(ixxchn', f.ixxchn), Given(ndigit', f.ndigit),
      Given(idropp', f.idropp), Given(matnum', f.matnum))
  }

  /** The fourteen attributes of Card 2 are held as one record. */
  class Card2 {
    var fields: Card2Fields

    constructor()
      ensures fields == Card2Fields("none", 0.0, 0.0, 0.0, 10001, 2, 50, 0, 9, 5, 0, 2, 2, 0)
    {
      fields := Card2Fields("none", 0.0, 0.0, 0.0, 10001, 2, 50, 0, 9, 5, 0, 2, 2, 0);
    }

    method Set(elmnt': Option<string>, aw': Option<real>, emin': Option<real>, emax': Option<real>,
               nepnts': Option<int>, itmax': Option<int>, icorr': Option<int>, nxtra': Option<int>,
               iptdop': Option<int>, iptwid': Option<int>, ixxchn': Option<int>, ndigit': Option<int>,
               idropp': Option<int>, matnum': Option<int>)
      modifies this
      ensures fields == Card2Set(old(fields), elmnt', aw', emin', emax', nepnts', itmax', icorr', nxtra', iptdop', iptwid', ixxchn', ndigit', idropp', matnum')
    {
      fields := Card2Set(fields, elmnt', aw', emin', emax', nepnts', itmax', icorr', nxtra', iptdop', iptwid', ixxchn', ndigit', idropp', matnum');
    }

    /** The fourteen fields side by side, the floats rendered by `fixed` (`.4f`):
        79 columns when every value fits its field. */
    function Str(fixed: real -> string): (r: string)
      reads this
      ensures Card2Fits(fields, fixed) ==> |r| == 79
    {
      Card2Width(fields, fixed);
      Card2Text(fields, fixed)
    }
  }

  lemma Card2Width(f: Card2Fields, fixed: real -> string)
    ensures Card2Fits(f, fixed) ==> |Card2Text(f, fixed)| == 79
  {
    if Card2Fits(f, fixed) {
      Card2Layout(f, fixed);
    }
  }

  // ---- Card 3 ---------------------------------------------------------------------

  /** An entry of `commands`: a command text, or (when a token names one of
      the card's own methods or attributes) that object itself. */
  datatype Entry = Command(text: string) | Member(name: string)

  /** The class docstring of Card 3, as `__doc__` holds it (Python 3.12 and
      earlier keep the indentation of its closing line). */
  const Card3Doc := " Card3 class for the Sammy input file.\n        "

  /** `__module__` of a card of the package `pleiades`. */
  const Card3Module := "pleiades.sammyInput"

  /** `getattr(self, name)` where `hasattr(self, name)`: the predefined
      command texts; the docstring and module name, which are texts too; the
      card's own members; and what every instance inherits from `object`,
      none of which is a text. */
  function Card3Attribute(name: string): (r: Option<Entry>)
    ensures PredefinedCommand(name).Some? ==> r == Some(Command(PredefinedCommand(name).value))
    ensures PredefinedCommand(name).None? && r.Some? && r.value.Command? ==> name == "__doc__" || name == "__module__"
    ensures r.Some? && r.value.Member? ==> r.value.name == name
  {
    if PredefinedCommand(name).Some? then Some(Command(PredefinedCommand(name).value))
    else match name
      case "__doc__" => Some(Command(Card3Doc))
      case "__module__" => Some(Command(Card3Module))
      case "commands" | "add_command" | "_read_from_config" => Some(Member(name))
      case "__class__" | "__delattr__" | "__dict__" | "__dir__" | "__eq__" | "__format__" | "__ge__" => Some(Member(name))
      case "__getattribute__" | "__getstate__" | "__gt__" | "__hash__" | "__init__" | "__init_subclass__" => Some(Member(name))
      case "__le__" | "__lt__" | "__ne__" | "__new__" | "__reduce__" | "__reduce_ex__" | "__repr__" => Some(Member(name))
      case "__setattr__" | "__sizeof__" | "__str__" | "__subclasshook__" | "__weakref__" => Some(Member(name))
      case _ => None
  }

  /** The attribute a token names, else the token itself. */
  function Resolve(token: string, attr: string -> Option<Entry>): Entry {
    if attr(token).Some? then attr(token).value else Command(token)
  }

  /** The entries for the tokens of a comma-separated list, each stripped first. */
  function Resolved(tokens: seq<string>, attr: string -> Option<Entry>): (es: seq<Entry>)
    ensures |es| == |tokens| && forall k :: 0 <= k < |tokens| ==> es[k] == Resolve(Strip(tokens[k]), attr)
  {
    Mapped(tokens, ResolveToken(attr))
  }

  function ResolveToken(attr: string -> Option<Entry>): string -> Entry {
    token => Resolve(Strip(token), attr)
  }

  function CommandTokens(c: Config): seq<string> {
    Split(ConfigGet(c, "Card3", "commands", ""), ',')
  }

  predicate AllCommands(es: seq<Entry>) {
    forall k :: 0 <= k < |es| ==> es[k].Command?
  }

  function Texts(es: seq<Entry>): (ts: seq<string>)
    requires AllCommands(es)
    ensures |ts| == |es| && forall k :: 0 <= k < |es| ==> ts[k] == es[k].text
  {
    seq(|es|, k requires 0 <= k < |es| => es[k].text)
  }

  /** `'\n'.join(self.commands) + '\n'`; joining a non-text entry raises. */
  function CommandsText(es: seq<Entry>): Option<string> {
    if AllCommands(es) then Some(Join("\n", Texts(es)) + "\n") else None
  }

  lemma ResolvedStep(tokens: seq<string>, i: nat, attr: string -> Option<Entry>, es: seq<Entry>, e: Entry)
    requires i < |tokens| && e == Resolve(Strip(tokens[i]), attr)
    ensures es + Resolved(tokens[..i], attr) + [e] == es + Resolved(tokens[..i + 1], attr)
  {
    var r0 := Resolved(tokens[..i], attr);
    assert Resolved(tokens[..i + 1], attr) == r0 + [e] by {
      MappedSnoc(tokens, i, ResolveToken(attr));
      assert ResolveToken(attr)(tokens[i]) == e;
    }
    Assoc(es, r0, [e]);
  }

  class Card3 {
    var commands: seq<Entry>

    constructor()
      ensures commands == []
    {
      commands := [];
    }

    method AddCommand(e: Entry)
      modifies this
      ensures commands == old(commands) + [e]
    {
      commands := commands + [e];
    }

    /** `_read_from_config`: one entry per token of the `commands` option, in order. */
    method ReadFromConfig(c: Config)
      modifies this
      ensures commands == old(commands) + Resolved(CommandTokens(c), Card3Attribute)
    {
      ReadTokens(CommandTokens(c), Card3Attribute);
    }

    /** The loop of `_read_from_config`, with `hasattr`/`getattr` as `attr`. */
    method ReadTokens(tokens: seq<string>, attr: string -> Option<Entry>)
      modifies this
      ensures commands == old(commands) + Resolved(tokens, attr)
    {
      for i := 0 to |tokens|
        invariant commands == old(commands) + Resolved(tokens[..i], attr)
      {
        var command := Strip(tokens[i]);
        var a := attr(command);
        var e := if a.Some? then a.value else Command(command);
        ResolvedStep(tokens, i, attr, old(commands), e);
        AddCommand(e);
      }
      assert tokens[..|tokens|] == tokens;
    }

    function Str(): (r: Option<string>)
      reads this
      ensures r.Some? <==> AllCommands(commands)
    {
      CommandsText(commands)
    }
  }

  /** Card 3's text is one line per command, each ending in a newline, when
      no command text holds a newline itself. */
  lemma CommandsTextLines(es: seq<Entry>)
    requires AllCommands(es) && |es| >= 1
    requires forall k :: 0 <= k < |es| ==> '\n' !in es[k].text
    ensures CommandsText(es).Some?
    ensures var t := CommandsText(es).value; t[|t| - 1] == '\n' && Split(t[..|t| - 1], '\n') == Texts(es)
  {
    var t := CommandsText(es).value;
    assert t[..|t| - 1] == Join("\n", Texts(es));
    SplitJoin(Texts(es), '\n');
  }

  /** A `commands` option listed as names joined by commas is read name by
      name: a predefined name becomes its keyword text, a name that is no
      attribute is kept as written (stripped). */
  lemma ConfigCommandsOfNames(c: Config, names: seq<string>)
    requires |names| >= 1 && forall k :: 0 <= k < |names| ==> ',' !in names[k]
    requires "Card3" in c && "commands" in c["Card3"] && c["Card3"]["commands"] == Join(",", names)
    ensures CommandTokens(c) == names
    ensures NamesResolved(names)
  {
    CommandTokensOf(c, names);
    ResolvedCard3(names);
  }

  /** The tokens of a `commands` option written as names joined by commas are those names. */
  lemma CommandTokensOf(c: Config, names: seq<string>)
    requires |names| >= 1 && forall k :: 0 <= k < |names| ==> ',' !in names[k]
    requires "Card3" in c && "commands" in c["Card3"] && c["Card3"]["commands"] == Join(",", names)
    ensures CommandTokens(c) == names
  {
    SplitJoin(names, ',');
  }

  /** The names of a list resolved one by one against Card 3's attributes. */
  lemma ResolvedCard3(names: seq<string>)
    ensures NamesResolved(names)
  {
    var p := (e, t) => ResolvedAs(e, t);
    forall t ensures p(Resolve(t, Card3Attribute), t) {
      ResolveCard3(t);
    }
    ResolvedEach(names, Card3Attribute, p);
  }

  /** A property that holds of every name's resolution holds of every entry of the list. */
  lemma ResolvedEach(names: seq<string>, attr: string -> Option<Entry>, p: (Entry, string) -> bool)
    requires forall t :: p(Resolve(t, attr), t)
    ensures forall k :: 0 <= k < |names| ==> p(Resolved(names, attr)[k], Strip(names[k]))
  {
  }

  /** Every name of the list is read as `ResolvedAs` says. */
  predicate NamesResolved(names: seq<string>) {
    forall k :: 0 <= k < |names| ==> ResolvedAs(Resolved(names, Card3Attribute)[k], Strip(names[k]))
  }

  /** Entry `e` is how Card 3 reads the name `t`: a predefined name as its
      keyword text, a name that is no attribute as written. */
  predicate ResolvedAs(e: Entry, t: string) {
    && (PredefinedCommand(t).Some? ==> e == Command(PredefinedCommand(t).value))
    && (Card3Attribute(t).None? ==> e == Command(t))
  }

  /** How one stripped name of the `commands` option is resolved. */
  lemma ResolveCard3(t: string)
    ensures ResolvedAs(Resolve(t, Card3Attribute), t)
  {
  }

  /** With no `commands` option the list has one empty command, so the text is a single newline. */
  lemma EmptyConfigCommands(c: Config, attr: string -> Option<Entry>)
    requires !("Card3" in c && "commands" in c["Card3"]) && attr("").None?
    ensures Resolved(CommandTokens(c), attr) == [Command("")]
    ensures CommandsText(Resolved(CommandTokens(c), attr)) == Some("\n")
  {
    assert CommandTokens(c) == [""];
    assert Strip("") == "";
    var es := Resolved(CommandTokens(c), attr);
    assert es == [Command("")];
    assert AllCommands(es);
    assert Texts(es) == [""];
    JoinOne("\n", "");
    assert CommandsText(es) == Some(Join("\n", [""]) + "\n");
    assert Join("\n", [""]) + "\n" == "\n";
  }

  lemma JoinOne(sep: string, x: string)
    ensures Join(sep, [x]) == x
  {
  }

  lemma NoEmptyAttribute()
    ensures Card3Attribute("").None?
  {
  }

  /** Naming an inherited attribute such as `__class__` in the `commands`
      option puts that object in the list, so `__str__` raises. */
  lemma {:induction false} InheritedNameBreaksStr(names: seq<string>, k: nat)
    requires k < |names| && Strip(names[k]) == "__class__"
    ensures Resolved(names, Card3Attribute)[k] == Member("__class__")
    ensures CommandsText(Resolved(names, Card3Attribute)).None?
  {
    ClassIsMember();
    MemberBreaksStr(names, k, Card3Attribute);
  }

  lemma ClassIsMember()
    ensures Card3Attribute("__class__") == Some(Member("__class__"))
  {
  }

  /** One token that names a non-text attribute makes the join raise. */
  lemma MemberBreaksStr(names: seq<string>, k: nat, attr: string -> Option<Entry>)
    requires k < |names| && attr(Strip(names[k])).Some? && attr(Strip(names[k])).value.Member?
    ensures Resolved(names, attr)[k] == attr(Strip(names[k])).value
    ensures CommandsText(Resolved(names, attr)).None?
  {
    assert !AllCommands(Resolved(names, attr));
  }

  lemma DocIsCommand()
    ensures Resolve("__doc__", Card3Attribute) == Command(Card3Doc)
  {
  }

  // ---- Card 6 ---------------------------------------------------------------------

  /** `getfloat` of `BCF_i` and `CF_i` (fallback 0.0) for `i` from `i` to `n`. */
  function CrunchFactors(c: Config, i: nat, n: int, parse: string -> Option<real>): (r: Option<(seq<real>, seq<real>)>)
    ensures r.Some? ==> |r.value.0| == |r.value.1| == Max(n - i + 1, 0)
    ensures r.Some? ==> forall k :: 0 <= k < |r.value.0| ==>
      && ConfigGetFloat(c, "Card6", "bcf_" + NatToString(i + k), 0.0, parse) == Some(r.value.0[k])
      && ConfigGetFloat(c, "Card6", "cf_" + NatToString(i + k), 0.0, parse) == Some(r.value.1[k])
    decreases Max(n - i + 1, 0)
  {
    if i > n then Some(([], []))
    else
      var b := ConfigGetFloat(c, "Card6", "bcf_" + NatToString(i), 0.0, parse);
      var f := ConfigGetFloat(c, "Card6", "cf_" + NatToString(i), 0.0, parse);
      if b.None? || f.None? then None
      else
        var rest := CrunchFactors(c, i + 1, n, parse);
        if rest.None? then None else Some(([b.value] + rest.value.0, [f.value] + rest.value.1))
  }

  /** `_read_from_config` of Card 6: `DELTAB`, `NCF`, then `NCF` crunch factors. */
  function Card6Read(c: Config, deltab: real, ncf: int, parse: string -> Option<real>): Option<(real, int, seq<real>, seq<real>)> {
    var db := ConfigGetFloat(c, "Card6", "deltab", deltab, parse);
    var n := ConfigGetInt(c, "Card6", "ncf", ncf);
    if db.None? || n.None? then None
    else
      var cfs := CrunchFactors(c, 1, n.value, parse);
      if cfs.None? then None else Some((db.value, n.value, cfs.value.0, cfs.value.1))
  }

  function Extend(bs: seq<real>, fs: seq<real>, r: Option<(seq<real>, seq<real>)>): Option<(seq<real>, seq<real>)> {
    if r.None? then None else Some((bs + r.value.0, fs + r.value.1))
  }

  function CrunchPair(b: real, f: real, fixed: real -> string): string {
    FormatF(b, 10, fixed) + FormatF(f, 10, fixed)
  }

  /** The first `n` crunch-factor pairs, each as its two 10-column fields. */
  function CrunchPairs(bs: seq<real>, fs: seq<real>, n: nat, fixed: real -> string): (r: seq<string>)
    requires n <= |bs| && n <= |fs|
    ensures |r| == n && forall k :: 0 <= k < n ==> r[k] == CrunchPair(bs[k], fs[k], fixed)
  {
    if n == 0 then [] else CrunchPairs(bs, fs, n - 1, fixed) + [CrunchPair(bs[n - 1], fs[n - 1], fixed)]
  }

  /** Card 6's text: nothing unless `DELTAG < 0`; otherwise `DELTAB` and
      `NCF`, a newline, and `NCF` crunch-factor pairs. Indexing past the
      stored lists raises. */
  function Card6Text(deltag: real, deltab: real, ncf: int, bcf: seq<real>, cf: seq<real>, fixed: real -> string): Option<string> {
    if deltag >= 0.0 then Some("")
    else if ncf > |bcf| || ncf > |cf| then None
    else Some(FormatF(deltab, 10, fixed) + FormatI(ncf, 5) + "\n" + Concat(CrunchPairs(bcf, cf, Max(ncf, 0), fixed)))
  }

  class Card6 {
    var deltag: real
    var deltab: real
    var ncf: int
    var bcf: seq<real>
    var cf: seq<real>

    /** `Card6(card5_instance)`: `DELTAG` comes from Card 5 when one is given. */
    constructor(card5Deltag: Option<real>)
      ensures deltag == (if card5Deltag.Some? then card5Deltag.value else 0.0)
      ensures deltab == 0.0 && ncf == 0 && bcf == [] && cf == []
    {
      deltag := if card5Deltag.Some? then card5Deltag.value else 0.0;
      deltab, ncf, bcf, cf := 0.0, 0, [], [];
    }

    /** The configuration is read only when `DELTAG < 0`; `false` where
        `getfloat` or `getint` raises. */
    method Configure(c: Config, parse: string -> Option<real>) returns (ok: bool)
      modifies this
      ensures deltag == old(deltag)
      ensures old(deltag) >= 0.0 ==> ok && deltab == old(deltab) && ncf == old(ncf) && bcf == old(bcf) && cf == old(cf)
      ensures old(deltag) < 0.0 ==> (ok <==> Card6Read(c, old(deltab), old(ncf), parse).Some?)
      ensures old(deltag) < 0.0 && ok ==>
        var v := Card6Read(c, old(deltab), old(ncf), parse).value;
        deltab == v.0 && ncf == v.1 && bcf == old(bcf) + v.2 && cf == old(cf) + v.3
    {
      if deltag >= 0.0 {
        return true;
      }
      var db := ConfigGetFloat(c, "Card6", "deltab", deltab, parse);
      if db.None? {
        return false;
      }
      deltab := db.value;
      var n := ConfigGetInt(c, "Card6", "ncf", ncf);
      if n.None? {
        return false;
      }
      ncf := n.value;
      var i := 1;
      while i <= ncf
        invariant 1 <= i && deltab == db.value && ncf == n.value && deltag == old(deltag)
        invariant Extend(bcf, cf, CrunchFactors(c, i, ncf, parse)) == Extend(old(bcf), old(cf), CrunchFactors(c, 1, ncf, parse))
        decreases ncf - i
      {
        var b := ConfigGetFloat(c, "Card6", "bcf_" + NatToString(i), 0.0, parse);
        var f := ConfigGetFloat(c, "Card6", "cf_" + NatToString(i), 0.0, parse);
        if b.None? || f.None? {
          return false;
        }
        ExtendStep(bcf, cf, b.value, f.value, CrunchFactors(c, i + 1, ncf, parse));
        bcf, cf := bcf + [b.value], cf + [f.value];
        i := i + 1;
      }
      assert bcf + [] == bcf && cf + [] == cf;
      ok := true;
    }

    method Str(fixed: real -> string) returns (r: Option<string>)
      ensures r == Card6Text(deltag, deltab, ncf, bcf, cf, fixed)
    {
      if deltag >= 0.0 {
        return Some("");
      }
      var line1 := FormatF(deltab, 10, fixed) + FormatI(ncf, 5);
      var line2 := CrunchLine(bcf, cf, ncf, fixed);
      r := if line2.None? then None else Some(line1 + "\n" + line2.value);
    }
  }

  /** The loop of Card 6's `__str__`: `NCF` pairs of crunch factors, `None`
      where `self.BCF[i]` or `self.CF[i]` is out of range. */
  method CrunchLine(bcf: seq<real>, cf: seq<real>, ncf: int, fixed: real -> string) returns (r: Option<string>)
    ensures r.None? <==> ncf > |bcf| || ncf > |cf|
    ensures r.Some? ==> r.value == Concat(CrunchPairs(bcf, cf, Max(ncf, 0), fixed))
  {
    var line2 := "";
    var i := 0;
    while i < ncf
      invariant 0 <= i <= Max(ncf, 0) && i <= |bcf| && i <= |cf|
      invariant line2 == Concat(CrunchPairs(bcf, cf, i, fixed))
      decreases ncf - i
    {
      if i >= |bcf| || i >= |cf| {
        return None;
      }
      ConcatAppend(CrunchPairs(bcf, cf, i, fixed), CrunchPair(bcf[i], cf[i], fixed));
      line2 := line2 + CrunchPair(bcf[i], cf[i], fixed);
      i := i + 1;
    }
    assert i == Max(ncf, 0);
    r := Some(line2);
  }

  lemma ExtendStep(bs: seq<real>, fs: seq<real>, b: real, f: real, rest: Option<(seq<real>, seq<real>)>)
    ensures Extend(bs + [b], fs + [f], rest) == Extend(bs, fs, if rest.None? then None else Some(([b] + rest.value.0, [f] + rest.value.1)))
  {
    if rest.Some? {
      assert bs + [b] + rest.value.0 == bs + ([b] + rest.value.0);
      assert fs + [f] + rest.value.1 == fs + ([f] + rest.value.1);
    }
  }

  /** Reading Card 6 stores as many crunch factors of each kind as `NCF`
      says, so a card read into empty lists always prints. */
  lemma Card6ReadPrints(c: Config, deltag: real, deltab: real, ncf: int, parse: string -> Option<real>, fixed: real -> string)
    requires deltag < 0.0 && Card6Read(c, deltab, ncf, parse).Some?
    ensures var v := Card6Read(c, deltab, ncf, parse).value;
      |v.2| == |v.3| == Max(v.1, 0) && Card6Text(deltag, v.0, v.1, v.2, v.3, fixed).Some?
  {
  }

  predicate FitsF(x: real, w: nat, fixed: real -> string) { |fixed(x)| <= w }

  /** When `DELTAG < 0` and every value fits, Card 6 is a 15-column line
      of `DELTAB` and `NCF`, a newline, and `NCF` pairs of 10-column fields. */
  lemma Card6Layout(deltag: real, deltab: real, ncf: int, bcf: seq<real>, cf: seq<real>, fixed: real -> string)
    requires deltag < 0.0 && 0 <= ncf <= |bcf| && ncf <= |cf|
    requires FitsF(deltab, 10, fixed) && |IntToString(ncf)| <= 5
    requires forall k :: 0 <= k < ncf ==> FitsF(bcf[k], 10, fixed) && FitsF(cf[k], 10, fixed)
    ensures Card6Text(deltag, deltab, ncf, bcf, cf, fixed).Some?
    ensures var t := Card6Text(deltag, deltab, ncf, bcf, cf, fixed).value;
      |t| == 16 + 20 * ncf && t[15] == '\n' && t[..15] == FormatF(deltab, 10, fixed) + FormatI(ncf, 5)
  {
    var head := FormatF(deltab, 10, fixed) + FormatI(ncf, 5);
    var body := Concat(CrunchPairs(bcf, cf, ncf, fixed));
    assert Card6Text(deltag, deltab, ncf, bcf, cf, fixed) == Some(head + "\n" + body);
    Card6HeadLength(deltab, ncf, fixed);
    CrunchBody(bcf, cf, ncf, fixed);
    HeadThenPairs(head, body, ncf);
  }

  /** ... and the `k`-th pair of crunch factors sits at columns `16 + 20k`. */
  lemma Card6PairColumns(deltag: real, deltab: real, ncf: int, bcf: seq<real>, cf: seq<real>, fixed: real -> string)
    requires deltag < 0.0 && 0 <= ncf <= |bcf| && ncf <= |cf|
    requires FitsF(deltab, 10, fixed) && |IntToString(ncf)| <= 5
    requires forall k :: 0 <= k < ncf ==> FitsF(bcf[k], 10, fixed) && FitsF(cf[k], 10, fixed)
    ensures Card6Text(deltag, deltab, ncf, bcf, cf, fixed).Some?
    ensures var t := Card6Text(deltag, deltab, ncf, bcf, cf, fixed).value;
      forall k :: 0 <= k < ncf ==> 36 + 20 * k <= |t| && t[16 + 20 * k..36 + 20 * k] == CrunchPair(bcf[k], cf[k], fixed)
  {
    var ps := CrunchPairs(bcf, cf, ncf, fixed);
    var body := Concat(ps);
    var head := FormatF(deltab, 10, fixed) + FormatI(ncf, 5) + "\n";
    assert Card6Text(deltag, deltab, ncf, bcf, cf, fixed) == Some(head + body);
    assert |head| == 16;
    CrunchBody(bcf, cf, ncf, fixed);
    PairsAfterHead(head, body, ps);
  }

  lemma CrunchBody(bcf: seq<real>, cf: seq<real>, ncf: nat, fixed: real -> string)
    requires ncf <= |bcf| && ncf <= |cf|
    requires forall k :: 0 <= k < ncf ==> FitsF(bcf[k], 10, fixed) && FitsF(cf[k], 10, fixed)
    ensures var body := Concat(CrunchPairs(bcf, cf, ncf, fixed));
      && |body| == 20 * ncf
      && forall k :: 0 <= k < ncf ==> 20 * k + 20 <= |body| && body[20 * k..20 * k + 20] == CrunchPair(bcf[k], cf[k], fixed)
  {
    ConcatUniform(CrunchPairs(bcf, cf, ncf, fixed), 20);
  }

  lemma Card6HeadLength(deltab: real, ncf: int, fixed: real -> string)
    requires FitsF(deltab, 10, fixed) && |IntToString(ncf)| <= 5
    ensures |FormatF(deltab, 10, fixed) + FormatI(ncf, 5)| == 15
  {
  }

  lemma HeadThenPairs(head: string, body: string, ncf: nat)
    requires |head| == 15 && |body| == 20 * ncf
    ensures var t := head + "\n" + body; |t| == 16 + 20 * ncf && t[15] == '\n' && t[..15] == head
  {
    var t := head + "\n" + body;
    assert t[..15] == head;
  }

  /** The 20-column fields of `body` after a 16-character head line. */
  lemma PairsAfterHead(head: string, body: string, ps: seq<string>)
    requires |head| == 16 && |body| == 20 * |ps|
    requires forall k :: 0 <= k < |ps| ==> body[20 * k..20 * k + 20] == ps[k]
    ensures forall k :: 0 <= k < |ps| ==> 36 + 20 * k <= |head + body| && (head + body)[16 + 20 * k..36 + 20 * k] == ps[k]
  {
    forall k | 0 <= k < |ps| ensures 36 + 20 * k <= |head + body| && (head + body)[16 + 20 * k..36 + 20 * k] == ps[k] {
      assert (head + body)[16 + 20 * k..36 + 20 * k] == body[20 * k..20 * k + 20];
    }
  }

  lemma MulMono(w: nat, k: nat, n: nat)
    requires k < n
    ensures w * k + w <= w * n
  {
    MulStep(w, n);
    if k < n - 1 {
      MulMono(w, k, n - 1);
    }
  }

  // ---- Card 8 ---------------------------------------------------------------------

  class Card8 {
    var cross: string

    constructor()
      ensures cross == ""
    {
      cross := "";
    }

    /** `CROSS` from section `Card8`, cut to 80 characters. */
    method ReadFromConfig(c: Config)
      modifies this
      ensures cross == Slice(ConfigGet(c, "Card8", "cross", old(cross)), 0, 80)
      ensures |cross| <= 80
    {
      cross := Slice(ConfigGet(c, "Card8", "cross", cross), 0, 80);
    }

    function Str(): (r: string)
      reads this
      ensures |cross| <= 80 ==> |r| == 80
      ensures |r| >= |cross| && r[..|cross|] == cross
    {
      FormatA(cross, 80)
    }
  }

  /** Card 8 read from any configuration is exactly 80 columns, starting
      with as much of the configured text as fits. */
  lemma Card8Width(c: Config, previous: string)
    ensures var v := ConfigGet(c, "Card8", "cross", previous);
      |FormatA(Slice(v, 0, 80), 80)| == 80 && FormatA(Slice(v, 0, 80), 80)[..Min(|v|, 80)] == v[..Min(|v|, 80)]
  {
  }

  // ---- Card 10 --------------------------------------------------------------------

  /** `list(map(int, tokens))`: `None` at the first token `int()` rejects. */
  function ParseInts(ts: seq<string>): (r: Option<seq<int>>)
    ensures r.Some? <==> forall k :: 0 <= k < |ts| ==> ParseInt(ts[k]).Some?
    ensures r.Some? ==> |r.value| == |ts| && forall k :: 0 <= k < |ts| ==> ParseInt(ts[k]) == Some(r.value[k])
  {
    ParseAll(ts, ParseInt)
  }

  /** `Card10(config_file)`: the isotope names and the spin-group counts,
      both comma-separated; a missing option raises `KeyError`, a bad count
      or lists of different lengths raise `ValueError`. */
  function Card10Config(c: Config): (r: Option<(seq<string>, seq<int>)>)
    ensures r.Some? ==> |r.value.0| == |r.value.1|
    ensures r.Some? ==> "Card10" in c && "isotopes" in c["Card10"] && r.value.0 == Split(c["Card10"]["isotopes"], ',')
  {
    if "Card10" !in c || "isotopes" !in c["Card10"] || "spingroups" !in c["Card10"] then None
    else
      var isotopes := Split(c["Card10"]["isotopes"], ',');
      var counts := ParseInts(Split(c["Card10"]["spingroups"], ','));
      if counts.None? || |counts.value| != |isotopes| then None else Some((isotopes, counts.value))
  }

  function Repeat(x: string, n: nat): (r: seq<string>)
    ensures |r| == n && forall k :: 0 <= k < n ==> r[k] == x
  {
    seq(n, _ => x)
  }

  /** The isotope each spin group belongs to: isotope `i` once for each of
      its `counts[i]` groups (none when the count is not positive). */
  function Owners(isotopes: seq<string>, counts: seq<int>): seq<string>
    decreases |isotopes|
  {
    if isotopes == [] || counts == [] then []
    else Repeat(isotopes[0], Max(counts[0], 0)) + Owners(isotopes[1..], counts[1..])
  }

  /** The columns of a spin-group line between its number and its comment:
      `EXCL`, `NENT`, `NEXT`, `SPINJ`, `ABNDNC`, `SPINI`, all zero. */
  function ZeroColumns(): string { "     0    0 0.00      0.00 0.00" }

  /** One line of `create_spin_group_string`. */
  function GroupLine(number: int, isotope: string): string {
    FormatI(number, 3) + ZeroColumns() + FormatA(isotope, 35) + "\n"
  }

  /** The lines of groups owned by `owners`, numbered from `first`, each written by `line`. */
  function GroupLinesWith(owners: seq<string>, first: int, line: (int, string) -> string): string
    decreases |owners|
  {
    if owners == [] then "" else line(first, owners[0]) + GroupLinesWith(owners[1..], first + 1, line)
  }

  function GroupLines(owners: seq<string>, first: int): string {
    GroupLinesWith(owners, first, GroupLine)
  }

  class Card10 {
    var isotopes: seq<string>
    var spingroups: seq<int>

    constructor()
      ensures isotopes == [] && spingroups == []
    {
      isotopes, spingroups := [], [];
    }

    /** The lists from the configuration; `false` where the source raises. */
    method Load(c: Config) returns (ok: bool)
      modifies this
      ensures ok <==> Card10Config(c).Some?
      ensures ok ==> (isotopes, spingroups) == Card10Config(c).value
      ensures !ok ==> isotopes == old(isotopes) && spingroups == old(spingroups)
    {
      var r := Card10Config(c);
      if r.None? {
        return false;
      }
      isotopes, spingroups := r.value.0, r.value.1;
      ok := true;
    }

    /** `create_spin_group_string`; `None` where `self.spingroups[i]` is out of range. */
    method CreateSpinGroupString() returns (r: Option<string>)
      ensures r.Some? <==> |isotopes| <= |spingroups|
      ensures r.Some? ==> r.value == GroupLines(Owners(isotopes, spingroups), 1)
    {
      r := SpinGroupString(isotopes, spingroups, GroupLine);
    }
  }

  /** The nested loops of `create_spin_group_string`: a counter runs over
      the groups of every isotope in turn, `line` writing each group. */
  method SpinGroupString(isotopes: seq<string>, counts: seq<int>, line: (int, string) -> string) returns (r: Option<string>)
    ensures r.Some? <==> |isotopes| <= |counts|
    ensures r.Some? ==> r.value == GroupLinesWith(Owners(isotopes, counts), 1, line)
  {
    var out := "";
    var groupNum := 0;
    var i := 0;
    while i < |isotopes|
      invariant i <= |isotopes| && i <= |counts|
      invariant out + GroupLinesWith(Owners(isotopes[i..], counts[i..]), groupNum + 1, line) == GroupLinesWith(Owners(isotopes, counts), 1, line)
      decreases |isotopes| - i
    {
      if i >= |counts| {
        return None;
      }
      var isotope := isotopes[i];
      ghost var rest := Owners(isotopes[i + 1..], counts[i + 1..]);
      OwnersFrom(isotopes, counts, i);
      var j := 0;
      while j < counts[i]
        invariant 0 <= j <= Max(counts[i], 0)
        invariant out + GroupLinesWith(Repeat(isotope, Max(counts[i], 0) - j) + rest, groupNum + 1, line) == GroupLinesWith(Owners(isotopes, counts), 1, line)
        decreases counts[i] - j
      {
        GroupStep(out, isotope, Max(counts[i], 0) - j, rest, groupNum, line, GroupLinesWith(Owners(isotopes, counts), 1, line));
        groupNum := groupNum + 1;
        out := out + line(groupNum, isotope);
        j := j + 1;
      }
      assert Repeat(isotope, 0) + rest == rest;
      i := i + 1;
    }
    r := Some(out);
  }

  /** The owners from isotope `i` on: those of isotope `i`, then the rest. */
  lemma OwnersFrom(isotopes: seq<string>, counts: seq<int>, i: nat)
    requires i < |isotopes| && i < |counts|
    ensures Owners(isotopes[i..], counts[i..]) == Repeat(isotopes[i], Max(counts[i], 0)) + Owners(isotopes[i + 1..], counts[i + 1..])
  {
    OwnersStep(isotopes[i..], counts[i..]);
    assert isotopes[i..][1..] == isotopes[i + 1..] && counts[i..][1..] == counts[i + 1..];
  }

  lemma OwnersStep(isotopes: seq<string>, counts: seq<int>)
    requires isotopes != [] && counts != []
    ensures Owners(isotopes, counts) == Repeat(isotopes[0], Max(counts[0], 0)) + Owners(isotopes[1..], counts[1..])
  {
  }

  /** One pass of the inner loop of `create_spin_group_string` keeps what is
      written and what is still to write adding up to `goal`. */
  lemma GroupStep(out: string, x: string, n: nat, rest: seq<string>, g: int, line: (int, string) -> string, goal: string)
    requires n > 0
    requires out + GroupLinesWith(Repeat(x, n) + rest, g + 1, line) == goal
    ensures (out + line(g + 1, x)) + GroupLinesWith(Repeat(x, n - 1) + rest, g + 2, line) == goal
  {
    RepeatStep(x, n, rest, g + 1, line);
    Assoc(out, line(g + 1, x), GroupLinesWith(Repeat(x, n - 1) + rest, g + 2, line));
  }

  lemma RepeatStep(x: string, n: nat, rest: seq<string>, first: int, line: (int, string) -> string)
    requires n > 0
    ensures GroupLinesWith(Repeat(x, n) + rest, first, line) == line(first, x) + GroupLinesWith(Repeat(x, n - 1) + rest, first + 1, line)
  {
    var s := Repeat(x, n) + rest;
    assert s[0] == x;
    assert s[1..] == Repeat(x, n - 1) + rest;
  }

  /** The groups `k` counts for, in total. */
  function Total(counts: seq<int>): nat
    decreases |counts|
  {
    if counts == [] then 0 else Max(counts[0], 0) + Total(counts[1..])
  }

  /** Group numbers run on across isotopes: the groups of isotope `i` are
      the `counts[i]` consecutive ones after the groups of the isotopes
      before it, and there are as many groups as the counts add up to. */
  lemma {:induction false} OwnersBlocks(isotopes: seq<string>, counts: seq<int>, i: nat)
    requires |isotopes| <= |counts| && i < |isotopes|
    ensures |Owners(isotopes, counts)| == Total(counts[..|isotopes|])
    ensures var lo := Total(counts[..i]);
      lo + Max(counts[i], 0) <= |Owners(isotopes, counts)|
      && forall k :: lo <= k < lo + Max(counts[i], 0) ==> Owners(isotopes, counts)[k] == isotopes[i]
    decreases i
  {
    OwnersLength(isotopes, counts);
    var m := Max(counts[0], 0);
    var tail := Owners(isotopes[1..], counts[1..]);
    assert Owners(isotopes, counts) == Repeat(isotopes[0], m) + tail;
    if i == 0 {
      assert counts[..0] == [];
    } else {
      OwnersBlocks(isotopes[1..], counts[1..], i - 1);
      assert counts[..i][1..] == counts[1..][..i - 1];
      assert Total(counts[..i]) == m + Total(counts[1..][..i - 1]);
      assert counts[1..][i - 1] == counts[i] && isotopes[1..][i - 1] == isotopes[i];
    }
  }

  lemma {:induction false} OwnersLength(isotopes: seq<string>, counts: seq<int>)
    requires |isotopes| <= |counts|
    ensures |Owners(isotopes, counts)| == Total(counts[..|isotopes|])
    decreases |isotopes|
  {
    if isotopes == [] {
      assert counts[..0] == [];
    } else {
      OwnersLength(isotopes[1..], counts[1..]);
      assert counts[..|isotopes|][1..] == counts[1..][..|isotopes| - 1];
    }
  }

  /** A single line ending in its only newline. */
  predicate OneLine(s: string) {
    s != [] && s[|s| - 1] == '\n' && '\n' !in s[..|s| - 1]
  }

  /** The lines `line(first + k, owners[k])`, in order. */
  function NumberedLines(owners: seq<string>, first: int, line: (int, string) -> string): (r: seq<string>)
    ensures |r| == |owners| && forall k :: 0 <= k < |owners| ==> r[k] == line(first + k, owners[k])
    decreases |owners|
  {
    if owners == [] then [] else [line(first, owners[0])] + NumberedLines(owners[1..], first + 1, line)
  }

  /** Text made of one line per group is split by a file reader into those lines. */
  lemma {:induction false} GroupLinesNumberedWith(owners: seq<string>, first: int, line: (int, string) -> string)
    requires forall k :: 0 <= k < |owners| ==> OneLine(line(first + k, owners[k]))
    ensures FileLines(GroupLinesWith(owners, first, line)) == NumberedLines(owners, first, line)
    decreases |owners|
  {
    if owners != [] {
      var l := line(first, owners[0]);
      assert OneLine(line(first + 0, owners[0]));
      assert l == l[..|l| - 1] + "\n";
      FileLinesOfLine(l[..|l| - 1]);
      FileLinesAppend(l, GroupLinesWith(owners[1..], first + 1, line));
      forall k | 0 <= k < |owners[1..]| ensures OneLine(line(first + 1 + k, owners[1..][k])) {
        assert OneLine(line(first + (k + 1), owners[k + 1]));
      }
      GroupLinesNumberedWith(owners[1..], first + 1, line);
    }
  }

  /** The spin-group text is one newline-terminated line per group, line
      `k` numbered `first + k` and commented with its isotope. */
  lemma GroupLinesNumbered(owners: seq<string>, first: int)
    requires forall k :: 0 <= k < |owners| ==> '\n' !in owners[k]
    ensures FileLines(GroupLines(owners, first)) == NumberedLines(owners, first, GroupLine)
  {
    forall k | 0 <= k < |owners| ensures OneLine(GroupLine(first + k, owners[k])) {
      GroupLineSingle(first + k, owners[k]);
    }
    GroupLinesNumberedWith(owners, first, GroupLine);
  }

  lemma GroupLineSingle(number: int, isotope: string)
    requires '\n' !in isotope
    ensures OneLine(GroupLine(number, isotope))
  {
    var body := FormatI(number, 3) + ZeroColumns() + FormatA(isotope, 35);
    NumberFree(number, 3);
    assert '\n' !in ZeroColumns();
    assert '\n' !in FormatA(isotope, 35);
    assert '\n' !in body;
    assert GroupLine(number, isotope)[..|body|] == body;
  }

  lemma NumberFree(n: int, w: nat)
    ensures '\n' !in FormatI(n, w)
  {
    var d := IntToString(n);
    assert NatToString(if n < 0 then -n else n) != [];
    assert '\n' !in d;
  }

  /** Each spin-group line can be read back: its group number in columns
      0-2 (when it fits) and its isotope from column 34. */
  lemma GroupLineFields(number: int, isotope: string)
    requires |IntToString(number)| <= 3
    ensures ParseInt(GroupLine(number, isotope)[..3]) == Some(number)
    ensures GroupLine(number, isotope)[34..34 + |isotope|] == isotope
  {
    GroupLineNumber(number, isotope);
    GroupLineIsotope(number, isotope);
  }

  lemma GroupLineNumber(number: int, isotope: string)
    requires |IntToString(number)| <= 3
    ensures |GroupLine(number, isotope)| >= 3 && ParseInt(GroupLine(number, isotope)[..3]) == Some(number)
  {
    GroupLineColumns(FormatI(number, 3), isotope);
    FormatIReadsBack(number, 3);
  }

  lemma GroupLineIsotope(number: int, isotope: string)
    requires |IntToString(number)| <= 3
    ensures |GroupLine(number, isotope)| >= 34 + |isotope| && GroupLine(number, isotope)[34..34 + |isotope|] == isotope
  {
    GroupLineColumns(FormatI(number, 3), isotope);
  }

  /** A spin-group line whose number takes three columns, cut at its fields. */
  lemma GroupLineColumns(a: string, isotope: string)
    requires |a| == 3
    ensures var line := a + ZeroColumns() + FormatA(isotope, 35) + "\n";
      |line| >= 34 + |isotope| && line[..3] == a && line[34..34 + |isotope|] == isotope
  {
    var z, b := ZeroColumns(), FormatA(isotope, 35);
    assert |z| == 31;
    var line := a + z + b + "\n";
    assert line == a + (z + (b + "\n"));
    assert line[..3] == a;
    assert line[34..34 + |isotope|] == b[..|isotope|];
  }
}
