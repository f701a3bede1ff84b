/** The older, table-driven builder of the SAMMY input file: a table of
    default parameters per card, overwritten from a configuration file,
    the command list of Card 3 rewritten (resolution-function and ENDF
    commands), and every card formatted into one line by the declared type
    and width of its parameters. */
module OldInput {
  import opened Text
  import opened CardFormat

  // ---- the default table ---------------------------------------------------------

  /** The Python type a parameter is declared with; `Other` stands for any
      type the formatter does not handle. */
  datatype Kind = Str | Int | Float | Other

  /** One entry of `_default_data`: the parameter's name, its default text,
      its declared type and its field width. A width of 0 stands for the
      table's `None`; the formatter tests the width for truth, so the two
      behave alike. */
  datatype ParamSpec = ParamSpec(name: string, default: string, kind: Kind, width: nat)

  datatype CardSpec = CardSpec(name: string, params: seq<ParamSpec>)

  type Table = seq<CardSpec>

  /** `self.data`: card name to parameter name to its text. */
  type Data = map<string, map<string, string>>

  /** `_default_data` as `_set_default_params` declares it. */
  function DefaultTable(): Table {
    [ CardSpec("Card1", Card1Params()), CardSpec("Card2", Card2Params()),
      CardSpec("Card3", Card3Params()), CardSpec("Card5", Card5Params()),
      CardSpec("Card7", Card7Params()), CardSpec("Card8", Card8Params()) ]
  }

  function Card1Params(): seq<ParamSpec> {
    [ParamSpec("title", "GENERAL TITLE FOR SAMMY RUN", Str, 80)]
  }

  function Card2Params(): seq<ParamSpec> {
    [ ParamSpec("elmnt", "Si_28", Str, 10),
      ParamSpec("aw", "auto", Float, 10),
      ParamSpec("emin", "0.001", Float, 10),
      ParamSpec("emax", "100.", Float, 10),
      ParamSpec("nepnts", "10001", Int, 5),
      ParamSpec("itmax", "2", Int, 5),
      ParamSpec("icorr", "50", Int, 2),
      ParamSpec("nxtra", "0", Int, 3),
      ParamSpec("iptdop", "9", Int, 2),
      ParamSpec("iptwid", "5", Int, 2),
      ParamSpec("ixxchn", "0", Int, 10),
      ParamSpec("ndigit", "2", Int, 2),
      ParamSpec("idropp", "2", Int, 2),
      ParamSpec("matnum", "0", Int, 6) ]
  }

  /** The one free-format parameter: its width is `None`. */
  function Card3Params(): seq<ParamSpec> {
    [ParamSpec("commands", "CHI_SQUARED,TWENTY,SOLVE_BAYES,PUT_QUANTUM_NUMS_IN_PARAM", Str, 0)]
  }

  function Card5Params(): seq<ParamSpec> {
    [ ParamSpec("temp", "300.5", Float, 10),
      ParamSpec("dist", "100.2", Float, 10),
      ParamSpec("deltal", "0.0", Float, 10),
      ParamSpec("deltae", "0.0", Float, 10),
      ParamSpec("deltag", "0.0", Float, 10),
      ParamSpec("delttt", "0.0", Float, 10),
      ParamSpec("elowbr", "0.0", Float, 10) ]
  }

  function Card7Params(): seq<ParamSpec> {
    [ ParamSpec("crfn", "1.0", Float, 10),
      ParamSpec("thick", "1.0", Float, 10),
      ParamSpec("dcova", "0.0", Float, 10),
      ParamSpec("dcovb", "0.0", Float, 10),
      ParamSpec("vmin", "0.0", Float, 10) ]
  }

  function Card8Params(): seq<ParamSpec> {
    [ParamSpec("cross", "TRANSMISSION", Str, 80)]
  }

  function ParamNames(ps: seq<ParamSpec>): set<string> {
    set j | 0 <= j < |ps| :: ps[j].name
  }

  function CardNames(t: Table): set<string> {
    set k | 0 <= k < |t| :: t[k].name
  }

  predicate UniqueParams(ps: seq<ParamSpec>) {
    forall i, j :: 0 <= i < j < |ps| ==> ps[i].name != ps[j].name
  }

  /** Card names are distinct, and so are the parameter names of each card,
      as the keys of a dict literal are. */
  predicate WellFormed(t: Table) {
    (forall i, j :: 0 <= i < j < |t| ==> t[i].name != t[j].name) &&
    forall k :: 0 <= k < |t| ==> UniqueParams(t[k].params)
  }

  /** `data` holds exactly the cards of the table, each with exactly the
      parameters the table declares for it. */
  ghost predicate Shaped(t: Table, d: Data) {
    d.Keys == CardNames(t) &&
    forall k :: 0 <= k < |t| ==> d[t[k].name].Keys == ParamNames(t[k].params)
  }

  // ---- _set_default_params -------------------------------------------------------------

  /** The defaults of one card, in the order the loop stores them. */
  function ParamDefaults(ps: seq<ParamSpec>): (m: map<string, string>)
    ensures m.Keys == ParamNames(ps)
    decreases |ps|
  {
    if ps == [] then map[]
    else
      var m := ParamDefaults(ps[..|ps| - 1]);
      assert forall j :: 0 <= j < |ps| - 1 ==> ps[..|ps| - 1][j] == ps[j];
      m[ps[|ps| - 1].name := ps[|ps| - 1].default]
  }

  /** `data` as `_set_default_params` fills it. */
  function Defaults(t: Table): (d: Data)
    ensures d.Keys == CardNames(t)
    decreases |t|
  {
    if t == [] then map[]
    else
      var d := Defaults(t[..|t| - 1]);
      assert forall j :: 0 <= j < |t| - 1 ==> t[..|t| - 1][j] == t[j];
      d[t[|t| - 1].name := ParamDefaults(t[|t| - 1].params)]
  }

  /** Every parameter of a card is set to its declared default. */
  lemma {:induction false} ParamDefaultsAt(ps: seq<ParamSpec>, j: nat)
    requires UniqueParams(ps) && j < |ps|
    ensures ParamDefaults(ps)[ps[j].name] == ps[j].default
    decreases |ps|
  {
    if j < |ps| - 1 {
      var init := ps[..|ps| - 1];
      assert init[j] == ps[j];
      ParamDefaultsAt(init, j);
    }
  }

  lemma {:induction false} DefaultsAt(t: Table, k: nat)
    requires WellFormed(t) && k < |t|
    ensures Defaults(t)[t[k].name] == ParamDefaults(t[k].params)
    decreases |t|
  {
    if k < |t| - 1 {
      var init := t[..|t| - 1];
      assert init[k] == t[k];
      assert forall i :: 0 <= i < |init| ==> init[i] == t[i];
      DefaultsAt(init, k);
    }
  }

  /** After `_set_default_params`, `data` has exactly the cards and
      parameters of the table, each set to its default. */
  lemma DefaultsContents(t: Table)
    requires WellFormed(t)
    ensures Shaped(t, Defaults(t))
    ensures forall k, j :: 0 <= k < |t| && 0 <= j < |t[k].params| ==>
      Defaults(t)[t[k].name][t[k].params[j].name] == t[k].params[j].default
  {
    forall k | 0 <= k < |t| ensures Defaults(t)[t[k].name] == ParamDefaults(t[k].params) {
      DefaultsAt(t, k);
    }
    forall k, j | 0 <= k < |t| && 0 <= j < |t[k].params|
      ensures Defaults(t)[t[k].name][t[k].params[j].name] == t[k].params[j].default
    {
      ParamDefaultsAt(t[k].params, j);
    }
  }

  /** The nested loops of `_set_default_params`. */
  method BuildDefaults(t: Table) returns (d: Data)
    ensures d == Defaults(t)
  {
    d := map[];
    for k := 0 to |t|
      invariant d == Defaults(t[..k])
    {
      var ps := t[k].params;
      var m: map<string, string> := map[];
      for j := 0 to |ps|
        invariant m == ParamDefaults(ps[..j])
      {
        assert ps[..j + 1][..j] == ps[..j];
        m := m[ps[j].name := ps[j].default];
      }
      assert ps[..|ps|] == ps;
      assert t[..k + 1][..k] == t[..k];
      d := d[t[k].name := m];
    }
    assert t[..|t|] == t;
  }

  lemma Card2Distinct()
    ensures UniqueParams(Card2Params())
  {
    var ps := Card2Params();
    forall i, j | 0 <= i < j < |ps| ensures ps[i].name != ps[j].name {
      var a, b := ps[i].name, ps[j].name;
      assert |a| != |b| || a[0] != b[0] || a[1] != b[1] || a[2] != b[2] || a[3] != b[3] || a[4] != b[4];
    }
  }

  lemma Card5Distinct()
    ensures UniqueParams(Card5Params())
  {
    var ps := Card5Params();
    forall i, j | 0 <= i < j < |ps| ensures ps[i].name != ps[j].name {
      var a, b := ps[i].name, ps[j].name;
      assert |a| != |b| || a[0] != b[0] || a[1] != b[1] || a[2] != b[2] || a[3] != b[3] || a[4] != b[4] || a[5] != b[5];
    }
  }

  lemma Card7Distinct()
    ensures UniqueParams(Card7Params())
  {
    var ps := Card7Params();
    forall i, j | 0 <= i < j < |ps| ensures ps[i].name != ps[j].name {
      var a, b := ps[i].name, ps[j].name;
      assert |a| != |b| || a[0] != b[0] || a[1] != b[1] || a[2] != b[2] || a[3] != b[3] || a[4] != b[4];
    }
  }

  /** The table `_set_default_params` declares is a table of distinct cards
      with distinct parameters. */
  lemma DefaultTableWellFormed()
    ensures WellFormed(DefaultTable())
  {
    var t := DefaultTable();
    forall i, j | 0 <= i < j < |t| ensures t[i].name != t[j].name {
      assert t[i].name[4] != t[j].name[4];
    }
    Card2Distinct();
    Card5Distinct();
    Card7Distinct();
  }

  // ---- _update_default_params_with_config ---------------------------------------------------

  /** One card's parameters after the configuration's section for it: a
      parameter the section also names takes the section's text. */
  function MergeRow(row: map<string, string>, section: map<string, string>): map<string, string> {
    map k | k in row :: if k in section then section[k] else row[k]
  }

  /** `data` after `_update_default_params_with_config`. */
  function Merge(d: Data, cfg: Config): Data {
    map c | c in d :: if c in cfg then MergeRow(d[c], cfg[c]) else d[c]
  }

  /** The configuration only overwrites: no card and no parameter is added
      or removed. */
  lemma MergeKeepsShape(t: Table, d: Data, cfg: Config)
    requires Shaped(t, d)
    ensures Shaped(t, Merge(d, cfg))
  {
  }

  /** Every text after the merge is the old one, or the configuration's one
      for the same card and parameter, and it is the configuration's one
      exactly where the configuration names a pair `data` already has. */
  lemma MergeSources(d: Data, cfg: Config, c: string, p: string)
    requires c in d && p in d[c]
    ensures c in Merge(d, cfg) && p in Merge(d, cfg)[c]
    ensures c in cfg && p in cfg[c] ==> Merge(d, cfg)[c][p] == cfg[c][p]
    ensures !(c in cfg && p in cfg[c]) ==> Merge(d, cfg)[c][p] == d[c][p]
  {
  }

  /** Merging the same configuration twice changes nothing more. */
  lemma MergeIdempotent(d: Data, cfg: Config)
    ensures Merge(Merge(d, cfg), cfg) == Merge(d, cfg)
  {
    var m := Merge(d, cfg);
    forall c | c in m ensures Merge(m, cfg)[c] == m[c] {
      if c in cfg {
        assert MergeRow(m[c], cfg[c]) == m[c];
      }
    }
  }

  /** A section of the configuration that names no card of `data` (Card10,
      which the constructor deletes first) has no effect. */
  lemma MergeIgnoresUnknown(d: Data, cfg: Config, c: string)
    requires c !in d
    ensures Merge(d, cfg - {c}) == Merge(d, cfg)
  {
  }

  /** The cards still to visit are those of `todo`. */
  function MergeExcept(d: Data, cfg: Config, todo: set<string>): Data {
    map c | c in d :: if c in cfg && c !in todo then MergeRow(d[c], cfg[c]) else d[c]
  }

  function MergeRowExcept(row: map<string, string>, section: map<string, string>, todo: set<string>): map<string, string> {
    map k | k in row :: if k in section && k !in todo then section[k] else row[k]
  }

  lemma MergeExceptStep(d: Data, cfg: Config, todo: set<string>, c: string)
    requires c in todo && todo <= cfg.Keys
    ensures c in d ==> MergeExcept(d, cfg, todo)[c] == d[c]
    ensures c in d ==> MergeExcept(d, cfg, todo)[c := MergeRow(d[c], cfg[c])] == MergeExcept(d, cfg, todo - {c})
    ensures c !in d ==> MergeExcept(d, cfg, todo) == MergeExcept(d, cfg, todo - {c})
  {
  }

  /** The inner loop: every option of the section that the card has. */
  method MergeSection(row: map<string, string>, section: map<string, string>) returns (r: map<string, string>)
    ensures r == MergeRow(row, section)
  {
    r := row;
    var todo := section.Keys;
    while todo != {}
      invariant todo <= section.Keys
      invariant r == MergeRowExcept(row, section, todo)
      decreases |todo|
    {
      var k :| k in todo;
      if k in r {
        r := r[k := section[k]];
      }
      todo := todo - {k};
    }
    assert r == MergeRowExcept(row, section, {});
  }

  /** The outer loop: every section of the configuration that names a card. */
  method MergeConfig(d: Data, cfg: Config) returns (r: Data)
    ensures r == Merge(d, cfg)
  {
    r := d;
    var todo := cfg.Keys;
    while todo != {}
      invariant todo <= cfg.Keys
      invariant r == MergeExcept(d, cfg, todo)
      decreases |todo|
    {
      var c :| c in todo;
      MergeExceptStep(d, cfg, todo, c);
      if c in r {
        var row := MergeSection(r[c], cfg[c]);
        r := r[c := row];
      }
      todo := todo - {c};
    }
    assert r == MergeExcept(d, cfg, {});
  }

  // ---- the command list of _update_and_calculate_values ------------------------------------

  /** A command naming the user-defined resolution function file. */
  predicate IsFileToken(t: string) {
    StartsWith(t, "FILE=")
  }

  /** A command asking for ENDF/B input, which gets the material number. */
  predicate IsEndfToken(t: string) {
    StartsWith(t, "INPUT IS ENDF")
  }

  function EndfCommand(mat: string): string {
    "INPUT IS ENDF/B FILE MAT=" + mat
  }

  /** `_resolution_commands` for a `FILE=` command. */
  function ResolutionBlock(t: string): string {
    "USER-DEFINED RESOLUTION FUNCTION\n" + t + "\n"
  }

  /** The command list after editing, and the resolution block if one was set. */
  datatype Edit = Edit(commands: seq<string>, resolution: Option<string>)

  /** One kept command: an ENDF command gets the material number when the
      values are updated automatically. */
  function EditToken(t: string, auto: bool, mat: string): string {
    if auto && IsEndfToken(t) then EndfCommand(mat) else t
  }

  lemma EndfCommandKinds(mat: string)
    ensures IsEndfToken(EndfCommand(mat)) && !IsFileToken(EndfCommand(mat))
  {
    assert EndfCommand(mat)[0] == 'I';
  }

  /** The edit as evidently intended: every `FILE=` command is taken out of
      the list, the last one becomes the resolution block, and every other
      command is kept in order (an ENDF command rewritten). */
  function EditCommands(ts: seq<string>, auto: bool, mat: string): (r: Edit)
    ensures |r.commands| <= |ts|
    ensures forall k :: 0 <= k < |r.commands| ==> !IsFileToken(r.commands[k])
    ensures r.resolution.Some? <==> exists k :: 0 <= k < |ts| && IsFileToken(ts[k])
    decreases |ts|
  {
    if ts == [] then Edit([], None)
    else
      var init := EditCommands(ts[..|ts| - 1], auto, mat);
      var t := ts[|ts| - 1];
      assert forall k :: 0 <= k < |ts| - 1 ==> ts[..|ts| - 1][k] == ts[k];
      if IsFileToken(t) then Edit(init.commands, Some(ResolutionBlock(t)))
      else
        EndfCommandKinds(mat);
        Edit(init.commands + [EditToken(t, auto, mat)], init.resolution)
  }

  /** The resolution block is the one of the last `FILE=` command. */
  lemma {:induction false} EditResolutionIsLast(ts: seq<string>, auto: bool, mat: string, k: nat)
    requires k < |ts| && IsFileToken(ts[k])
    requires forall j :: k < j < |ts| ==> !IsFileToken(ts[j])
    ensures EditCommands(ts, auto, mat).resolution == Some(ResolutionBlock(ts[k]))
    decreases |ts|
  {
    if k < |ts| - 1 {
      var init := ts[..|ts| - 1];
      assert init[k] == ts[k];
      assert forall j :: k < j < |init| ==> init[j] == ts[j];
      EditResolutionIsLast(init, auto, mat, k);
    }
  }

  /** Without `FILE=` and ENDF rewriting the list is left as it is. */
  lemma {:induction false} EditIdentity(ts: seq<string>, mat: string)
    requires forall k :: 0 <= k < |ts| ==> !IsFileToken(ts[k])
    ensures EditCommands(ts, false, mat) == Edit(ts, None)
    decreases |ts|
  {
    if ts != [] {
      var init := ts[..|ts| - 1];
      assert forall k :: 0 <= k < |init| ==> init[k] == ts[k];
      EditIdentity(init, mat);
      assert init + [ts[|ts| - 1]] == ts;
    }
  }

  /** Editing the edited list again changes nothing and sets no block. */
  lemma {:induction false} EditIdempotent(ts: seq<string>, auto: bool, mat: string)
    ensures var cs := EditCommands(ts, auto, mat).commands; EditCommands(cs, auto, mat) == Edit(cs, None)
    decreases |ts|
  {
    if ts != [] {
      var init := ts[..|ts| - 1];
      var t := ts[|ts| - 1];
      EditIdempotent(init, auto, mat);
      var ci := EditCommands(init, auto, mat).commands;
      if !IsFileToken(t) {
        var cs := ci + [EditToken(t, auto, mat)];
        assert cs[..|cs| - 1] == ci;
        EndfCommandKinds(mat);
        assert EditToken(EditToken(t, auto, mat), auto, mat) == EditToken(t, auto, mat);
      }
    }
  }

  /** The rewriting loop, with every `FILE=` command taken out. */
  method EditCommandList(ts: seq<string>, auto: bool, mat: string) returns (cs: seq<string>, res: Option<string>)
    ensures Edit(cs, res) == EditCommands(ts, auto, mat)
  {
    cs, res := [], None;
    for i := 0 to |ts|
      invariant Edit(cs, res) == EditCommands(ts[..i], auto, mat)
    {
      EditCommandsSnoc(ts, i, auto, mat);
      if IsFileToken(ts[i]) {
        res := Some(ResolutionBlock(ts[i]));
      } else {
        cs := cs + [EditToken(ts[i], auto, mat)];
      }
    }
    assert ts[..|ts|] == ts;
  }

  lemma EditCommandsSnoc(ts: seq<string>, i: nat, auto: bool, mat: string)
    requires i < |ts|
    ensures var e := EditCommands(ts[..i], auto, mat);
      EditCommands(ts[..i + 1], auto, mat) ==
        if IsFileToken(ts[i]) then Edit(e.commands, Some(ResolutionBlock(ts[i])))
        else Edit(e.commands + [EditToken(ts[i], auto, mat)], e.resolution)
  {
    assert ts[..i + 1][..i] == ts[..i];
  }

  /** The loop as written: `enumerate` walks the live list while `pop`
      shortens it, so the command after a popped one is never visited. */
  function PopWalk(cs: seq<string>, i: nat, auto: bool, mat: string, res: Option<string>): Edit
    decreases |cs| - i
  {
    if i >= |cs| then Edit(cs, res)
    else
      var c := cs[i];
      var cs1 := if auto && IsEndfToken(c) then cs[i := EndfCommand(mat)] else cs;
      if IsFileToken(c) then PopWalk(cs1[..i] + cs1[i + 1..], i + 1, auto, mat, Some(ResolutionBlock(c)))
      else PopWalk(cs1, i + 1, auto, mat, res)
  }

  /** The edit as written: the walk from the first command, with no block yet. */
  function EditAsWritten(ts: seq<string>, auto: bool, mat: string): Edit {
    PopWalk(ts, 0, auto, mat, None)
  }

  /** The rewriting loop as written: the list is changed while it is walked. */
  method PopWalkList(ts: seq<string>, auto: bool, mat: string) returns (cs: seq<string>, res: Option<string>)
    ensures Edit(cs, res) == EditAsWritten(ts, auto, mat)
  {
    cs, res := ts, None;
    var i := 0;
    while i < |cs|
      invariant PopWalk(cs, i, auto, mat, res) == EditAsWritten(ts, auto, mat)
      decreases |cs| - i
    {
      var command := cs[i];
      if auto && IsEndfToken(command) {
        cs := cs[i := EndfCommand(mat)];
      }
      if IsFileToken(command) {
        res := Some(ResolutionBlock(command));
        cs := cs[..i] + cs[i + 1..];
      }
      i := i + 1;
    }
  }

  lemma FileIsNotEndf(t: string)
    requires IsFileToken(t)
    ensures !IsEndfToken(t)
  {
    assert t[0] == 'F';
  }

  lemma ResolutionBlockInjective(a: string, b: string)
    requires ResolutionBlock(a) == ResolutionBlock(b)
    ensures a == b
  {
    var p := "USER-DEFINED RESOLUTION FUNCTION\n";
    assert ResolutionBlock(a) == p + a + "\n" && ResolutionBlock(b) == p + b + "\n";
    assert a == ResolutionBlock(a)[|p|..|p| + |a|];
  }

  /** From index `j` on, the walk leaves the commands before `j` as they are. */
  lemma {:induction false} PopWalkKeepsPrefix(cs: seq<string>, j: nat, auto: bool, mat: string, res: Option<string>)
    ensures var r := PopWalk(cs, j, auto, mat, res); var n := if j < |cs| then j else |cs|;
      n <= |r.commands| && r.commands[..n] == cs[..n]
    decreases |cs| - j
  {
    if j < |cs| {
      var c := cs[j];
      var r := PopWalk(cs, j, auto, mat, res);
      var next := if IsFileToken(c) then cs[..j] + cs[j + 1..]
        else if auto && IsEndfToken(c) then cs[j := EndfCommand(mat)] else cs;
      var res1 := if IsFileToken(c) then Some(ResolutionBlock(c)) else res;
      if IsFileToken(c) {
        FileIsNotEndf(c);
      }
      assert r == PopWalk(next, j + 1, auto, mat, res1);
      PopWalkKeepsPrefix(next, j + 1, auto, mat, res1);
      var n1 := if j + 1 < |next| then j + 1 else |next|;
      assert j <= n1;
      assert next[..j] == cs[..j];
      assert r.commands[..j] == r.commands[..n1][..j];
    }
  }

  /** From index `j` on, the block the walk ends with is the one it started
      with or that of a `FILE=` command at index `j` or later. */
  lemma {:induction false} PopWalkBlock(cs: seq<string>, j: nat, auto: bool, mat: string, res: Option<string>)
    ensures var r := PopWalk(cs, j, auto, mat, res);
      r.resolution == res || exists m :: j <= m < |cs| && IsFileToken(cs[m]) && r.resolution == Some(ResolutionBlock(cs[m]))
    decreases |cs| - j
  {
    if j < |cs| {
      var c := cs[j];
      var r := PopWalk(cs, j, auto, mat, res);
      if IsFileToken(c) {
        FileIsNotEndf(c);
        var next := cs[..j] + cs[j + 1..];
        assert r == PopWalk(next, j + 1, auto, mat, Some(ResolutionBlock(c)));
        PopWalkBlock(next, j + 1, auto, mat, Some(ResolutionBlock(c)));
        if r.resolution != Some(ResolutionBlock(c)) {
          var m :| j + 1 <= m < |next| && IsFileToken(next[m]) && r.resolution == Some(ResolutionBlock(next[m]));
          assert next[m] == cs[m + 1];
        }
      } else {
        var cs1 := if auto && IsEndfToken(c) then cs[j := EndfCommand(mat)] else cs;
        assert r == PopWalk(cs1, j + 1, auto, mat, res);
        PopWalkBlock(cs1, j + 1, auto, mat, res);
        if r.resolution != res {
          var m :| j + 1 <= m < |cs1| && IsFileToken(cs1[m]) && r.resolution == Some(ResolutionBlock(cs1[m]));
          assert cs1[m] == cs[m];
        }
      }
    }
  }

  /** Whenever the walk pops a `FILE=` command at index `i`, the command
      after it moves into index `i` and is never visited: it stays in the
      list unedited (even a `FILE=` or an ENDF command), and the block
      stored is the popped one's or that of a command further on, so not
      the skipped command's unless that text occurs again. */
  lemma PopWalkPopSkipsNext(cs: seq<string>, i: nat, auto: bool, mat: string, res: Option<string>)
    requires i + 1 < |cs| && IsFileToken(cs[i])
    ensures var r := PopWalk(cs, i, auto, mat, res); i < |r.commands| && r.commands[i] == cs[i + 1]
    ensures var r := PopWalk(cs, i, auto, mat, res);
      r.resolution == Some(ResolutionBlock(cs[i])) ||
      exists m :: i + 2 <= m < |cs| && IsFileToken(cs[m]) && r.resolution == Some(ResolutionBlock(cs[m]))
    ensures (forall m :: i <= m < |cs| && m != i + 1 ==> cs[m] != cs[i + 1]) ==>
      PopWalk(cs, i, auto, mat, res).resolution != Some(ResolutionBlock(cs[i + 1]))
  {
    FileIsNotEndf(cs[i]);
    var next := cs[..i] + cs[i + 1..];
    assert PopWalk(cs, i, auto, mat, res) == PopWalk(next, i + 1, auto, mat, Some(ResolutionBlock(cs[i])));
    PopWalkKeepsPrefix(next, i + 1, auto, mat, Some(ResolutionBlock(cs[i])));
    PopWalkBlock(next, i + 1, auto, mat, Some(ResolutionBlock(cs[i])));
    assert next[i] == cs[i + 1];
    assert forall m :: i + 1 <= m < |next| ==> next[m] == cs[m + 1];
    var r := PopWalk(cs, i, auto, mat, res);
    if (forall m :: i <= m < |cs| && m != i + 1 ==> cs[m] != cs[i + 1]) && r.resolution == Some(ResolutionBlock(cs[i + 1])) {
      if r.resolution == Some(ResolutionBlock(cs[i])) {
        ResolutionBlockInjective(cs[i], cs[i + 1]);
      } else {
        var m :| i + 2 <= m < |cs| && IsFileToken(cs[m]) && r.resolution == Some(ResolutionBlock(cs[m]));
        ResolutionBlockInjective(cs[m], cs[i + 1]);
      }
      assert false;
    }
  }

  /** Two resolution commands in a row: the loop as written keeps the second
      in the command list, and the block it stores is the first one's. */
  lemma PopWalkSkips()
    ensures PopWalk(["FILE=a", "FILE=b"], 0, false, "", None) == Edit(["FILE=b"], Some(ResolutionBlock("FILE=a")))
    ensures EditCommands(["FILE=a", "FILE=b"], false, "") == Edit([], Some(ResolutionBlock("FILE=b")))
  {
    var cs := ["FILE=a", "FILE=b"];
    assert IsFileToken(cs[0]) && IsFileToken(cs[1]);
    assert cs[..0] + cs[1..] == ["FILE=b"];
    assert PopWalk(["FILE=b"], 1, false, "", Some(ResolutionBlock("FILE=a"))) == Edit(["FILE=b"], Some(ResolutionBlock("FILE=a")));
    assert cs[..1] == ["FILE=a"];
    assert EditCommands(["FILE=a"], false, "") == Edit([], Some(ResolutionBlock("FILE=a")));
  }

  /** Three resolution commands, through both runs of the update (the one
      `__init__` makes and the one `process` makes on the list joined back
      with commas): as written, the block stored last is the second one's,
      while the intended edit stores the third one's. */
  lemma PopWalkTwiceSkips()
    ensures PopWalk(["FILE=a", "FILE=b", "FILE=c"], 0, false, "", None) == Edit(["FILE=b"], Some(ResolutionBlock("FILE=c")))
    ensures Split(Join(",", ["FILE=b"]), ',') == ["FILE=b"]
    ensures PopWalk(["FILE=b"], 0, false, "", Some(ResolutionBlock("FILE=c"))) == Edit([], Some(ResolutionBlock("FILE=b")))
    ensures EditCommands(["FILE=a", "FILE=b", "FILE=c"], false, "") == Edit([], Some(ResolutionBlock("FILE=c")))
  {
    var cs := ["FILE=a", "FILE=b", "FILE=c"];
    assert IsFileToken(cs[0]) && IsFileToken(cs[1]) && IsFileToken(cs[2]);
    assert cs[..0] + cs[1..] == ["FILE=b", "FILE=c"];
    var bc := ["FILE=b", "FILE=c"];
    assert bc[..1] + bc[2..] == ["FILE=b"];
    assert PopWalk(["FILE=b"], 2, false, "", Some(ResolutionBlock("FILE=c"))) == Edit(["FILE=b"], Some(ResolutionBlock("FILE=c")));
    var b := ["FILE=b"];
    assert b[..0] + b[1..] == [];
    assert PopWalk([], 1, false, "", Some(ResolutionBlock("FILE=b"))) == Edit([], Some(ResolutionBlock("FILE=b")));
    assert ',' !in b[0];
    SplitJoin(b, ',');
    assert cs[..2] == ["FILE=a", "FILE=b"] && cs[..2][..1] == ["FILE=a"];
    assert EditCommands(["FILE=a"], false, "") == Edit([], Some(ResolutionBlock("FILE=a")));
    assert EditCommands(["FILE=a", "FILE=b"], false, "") == Edit([], Some(ResolutionBlock("FILE=b")));
  }

  // ---- _update_and_calculate_values -------------------------------------------------------

  predicate Has(d: Data, c: string, p: string) {
    c in d && p in d[c]
  }

  /** `data[c][p] = v`. */
  function Put(d: Data, c: string, p: string, v: string): (r: Data)
    requires c in d
    ensures r.Keys == d.Keys && r[c].Keys == d[c].Keys + {p}
  {
    d[c := d[c][p := v]]
  }

  lemma PutSame(d: Data, c: string, p: string)
    requires Has(d, c, p)
    ensures Put(d, c, p, d[c][p]) == d
  {
    assert d[c][p := d[c][p]] == d[c];
  }

  lemma PutKeepsShape(t: Table, d: Data, c: string, p: string, v: string)
    requires Shaped(t, d)
    ensures Has(d, c, p) ==> Shaped(t, Put(d, c, p, v))
  {
  }

  /** The names the update reads `data` by: the Card 2 element and atomic
      weight, the text `auto`, and the Card 3 command list. */
  datatype Keys = Keys(card2: string, elmnt: string, aw: string, auto: string, card3: string, commands: string)

  function SammyKeys(): (k: Keys)
    ensures k.card2 != k.card3
  {
    var k := Keys("Card2", "elmnt", "aw", "auto", "Card3", "commands");
    assert k.card2[4] != k.card3[4];
    k
  }

  /** `data`, `_resolution_commands`, and whether the method returned normally. */
  datatype Calc = Calc(data: Data, resolution: Option<string>, ok: bool)

  /** How the update edits the split command list: as written (`EditAsWritten`)
      or as evidently intended (`EditCommands`). */
  type Editor = (seq<string>, bool, string) -> Edit

  /** `data` after the atomic weight step. */
  function WeightStep(k: Keys, d: Data, auto: bool, weight: string): Data
    requires Has(d, k.card2, k.aw)
  {
    if auto && d[k.card2][k.aw] == k.auto then Put(d, k.card2, k.aw, weight) else d
  }

  /** `_update_and_calculate_values`, read through the names `k`. The atomic
      weight (already rendered with eight decimals) and the material number
      are what the nuclear-data lookups return, `None` where they raise. A
      missing key raises a `KeyError`; the state reached before an
      exception is kept. */
  function CalculateWith(k: Keys, d: Data, res: Option<string>, auto: bool, weight: Option<string>, mat: Option<string>, edit: Editor): Calc {
    if !Has(d, k.card2, k.elmnt) || weight.None? then Calc(d, res, false)
    else if auto && !Has(d, k.card2, k.aw) then Calc(d, res, false)
    else
      var d1 := if auto then WeightStep(k, d, auto, weight.value) else d;
      if auto && mat.None? then Calc(d1, res, false)
      else CommandsStep(k, d1, res, auto, if auto then mat.value else "", edit)
  }

  /** The rewriting of the Card 3 command list, the last step of the update. */
  function CommandsStep(k: Keys, d: Data, res: Option<string>, auto: bool, mat: string, edit: Editor): Calc {
    if !Has(d, k.card3, k.commands) then Calc(d, res, false)
    else
      var e := edit(Split(d[k.card3][k.commands], ','), auto, mat);
      Calc(Put(d, k.card3, k.commands, Join(",", e.commands)), if e.resolution.Some? then e.resolution else res, true)
  }

  /** The update as the program runs it, with the edit as written. */
  function Calculate(d: Data, res: Option<string>, auto: bool, weight: Option<string>, mat: Option<string>): Calc {
    CalculateWith(SammyKeys(), d, res, auto, weight, mat, EditAsWritten)
  }

  /** The update only overwrites parameters `data` already has, whatever the edit. */
  lemma CalculateKeepsShape(t: Table, k: Keys, d: Data, res: Option<string>, auto: bool, weight: Option<string>, mat: Option<string>, edit: Editor)
    requires Shaped(t, d)
    ensures Shaped(t, CalculateWith(k, d, res, auto, weight, mat, edit).data)
  {
    if Has(d, k.card2, k.elmnt) && weight.Some? && !(auto && !Has(d, k.card2, k.aw)) {
      var d1 := if auto then WeightStep(k, d, auto, weight.value) else d;
      PutKeepsShape(t, d, k.card2, k.aw, weight.value);
      if !(auto && mat.None?) && Has(d1, k.card3, k.commands) {
        var e := edit(Split(d1[k.card3][k.commands], ','), auto, if auto then mat.value else "");
        PutKeepsShape(t, d1, k.card3, k.commands, Join(",", e.commands));
      }
    }
  }

  /** It returns normally exactly when both lookups succeed (the material
      number only matters when updating automatically) and the keys exist. */
  lemma CalculateOk(k: Keys, d: Data, res: Option<string>, auto: bool, weight: Option<string>, mat: Option<string>, edit: Editor)
    requires k.card2 != k.card3
    ensures CalculateWith(k, d, res, auto, weight, mat, edit).ok <==>
      Has(d, k.card2, k.elmnt) && weight.Some? && Has(d, k.card3, k.commands) &&
      (auto ==> Has(d, k.card2, k.aw) && mat.Some?)
  {
  }

  /** An `auto` atomic weight is replaced by the looked-up one, and only
      when updating automatically. */
  lemma CalculateWeight(k: Keys, d: Data, res: Option<string>, auto: bool, weight: Option<string>, mat: Option<string>, edit: Editor)
    requires k.card2 != k.card3
    requires Has(d, k.card2, k.aw) && CalculateWith(k, d, res, auto, weight, mat, edit).ok
    ensures var r := CalculateWith(k, d, res, auto, weight, mat, edit).data;
      r[k.card2][k.aw] == if auto && d[k.card2][k.aw] == k.auto then weight.value else d[k.card2][k.aw]
  {
  }

  /** No text of the list holds a comma. */
  predicate CommaFree(cs: seq<string>) {
    forall k :: 0 <= k < |cs| ==> ',' !in cs[k]
  }

  /** Splitting a comma-joined list of comma-free texts gives the list back;
      the empty list joins to "", which splits to one empty command. */
  lemma SplitCommaJoined(cs: seq<string>)
    requires CommaFree(cs)
    ensures Split(Join(",", cs), ',') == if cs == [] then [""] else cs
  {
    if cs != [] {
      SplitJoin(cs, ',');
    }
  }

  lemma EndfCommaFree(mat: string)
    requires ',' !in mat
    ensures ',' !in EndfCommand(mat)
  {
    var p := "INPUT IS ENDF/B FILE MAT=";
    assert forall i :: 0 <= i < |p| ==> p[i] != ',';
    assert EndfCommand(mat) == p + mat;
  }

  lemma {:induction false} EditCommaFree(ts: seq<string>, auto: bool, mat: string)
    requires ',' !in mat && CommaFree(ts)
    ensures CommaFree(EditCommands(ts, auto, mat).commands)
    decreases |ts|
  {
    if ts != [] {
      var init := ts[..|ts| - 1];
      assert forall k :: 0 <= k < |init| ==> init[k] == ts[k];
      EditCommaFree(init, auto, mat);
      EndfCommaFree(mat);
      var t := ts[|ts| - 1];
      assert ',' !in EditToken(t, auto, mat);
      var ci := EditCommands(init, auto, mat).commands;
      assert CommaFree(ci + [EditToken(t, auto, mat)]);
    }
  }

  /** After the update with the corrected edit, the Card 3 command list
      holds no resolution-file command (when the material number has no
      comma in it). */
  lemma CommandsStepTakesOutFiles(k: Keys, d: Data, res: Option<string>, auto: bool, mat: string)
    requires Has(d, k.card3, k.commands) && ',' !in mat
    ensures var r := CommandsStep(k, d, res, auto, mat, EditCommands).data;
      Has(r, k.card3, k.commands) &&
      var cs := Split(r[k.card3][k.commands], ','); forall j :: 0 <= j < |cs| ==> !IsFileToken(cs[j])
  {
    var ts := Split(d[k.card3][k.commands], ',');
    EditCommaFree(ts, auto, mat);
    SplitCommaJoined(EditCommands(ts, auto, mat).commands);
  }

  lemma CalculateTakesOutFiles(k: Keys, d: Data, res: Option<string>, auto: bool, weight: Option<string>, mat: Option<string>)
    requires CalculateWith(k, d, res, auto, weight, mat, EditCommands).ok
    requires auto ==> ',' !in mat.value
    ensures var r := CalculateWith(k, d, res, auto, weight, mat, EditCommands).data;
      Has(r, k.card3, k.commands) &&
      var cs := Split(r[k.card3][k.commands], ','); forall j :: 0 <= j < |cs| ==> !IsFileToken(cs[j])
  {
    var d1 := if auto then WeightStep(k, d, auto, weight.value) else d;
    CommandsStepTakesOutFiles(k, d1, res, auto, if auto then mat.value else "");
  }

  /** Rewriting the rewritten command list again with the corrected edit changes nothing. */
  lemma CommandsStepTwice(k: Keys, d: Data, res: Option<string>, auto: bool, mat: string)
    requires Has(d, k.card3, k.commands) && ',' !in mat
    ensures var r := CommandsStep(k, d, res, auto, mat, EditCommands); CommandsStep(k, r.data, r.resolution, auto, mat, EditCommands) == r
  {
    var ts := Split(d[k.card3][k.commands], ',');
    var cs := EditCommands(ts, auto, mat).commands;
    ReEditJoined(ts, auto, mat);
    var r := CommandsStep(k, d, res, auto, mat, EditCommands);
    assert r.data[k.card3][k.commands] == Join(",", cs);
    PutSame(r.data, k.card3, k.commands);
  }

  /** The joined, edited commands split and edited again join to the same text. */
  lemma ReEditJoined(ts: seq<string>, auto: bool, mat: string)
    requires ',' !in mat && CommaFree(ts)
    ensures var cs := EditCommands(ts, auto, mat).commands;
      var e2 := EditCommands(Split(Join(",", cs), ','), auto, mat);
      Join(",", e2.commands) == Join(",", cs) && e2.resolution == None
  {
    EditCommaFree(ts, auto, mat);
    var cs := EditCommands(ts, auto, mat).commands;
    SplitCommaJoined(cs);
    if cs == [] {
      ReEditNothing(cs, auto, mat);
    } else {
      EditIdempotent(ts, auto, mat);
    }
  }

  lemma ReEditNothing(cs: seq<string>, auto: bool, mat: string)
    requires cs == [] && Split(Join(",", cs), ',') == [""]
    ensures var e2 := EditCommands(Split(Join(",", cs), ','), auto, mat);
      Join(",", e2.commands) == Join(",", cs) && e2.resolution == None
  {
    assert EditCommands([""], auto, mat) == Edit([""], None);
    assert Join(",", [""]) == "" == Join(",", cs);
  }

  /** With the corrected edit, running the update a second time, as
      `process` does after the constructor, leaves everything as the first
      run left it (when the looked-up weight is not itself the text `auto`). */
  lemma CalculateIdempotent(k: Keys, d: Data, res: Option<string>, auto: bool, weight: Option<string>, mat: Option<string>)
    requires k.card2 != k.card3
    requires CalculateWith(k, d, res, auto, weight, mat, EditCommands).ok
    requires weight.Some? && weight.value != k.auto
    requires auto ==> ',' !in mat.value
    ensures var r := CalculateWith(k, d, res, auto, weight, mat, EditCommands);
      CalculateWith(k, r.data, r.resolution, auto, weight, mat, EditCommands) == r
  {
    var d1 := if auto then WeightStep(k, d, auto, weight.value) else d;
    var m := if auto then mat.value else "";
    assert Has(d1, k.card3, k.commands);
    CommandsStepTwice(k, d1, res, auto, m);
    CalculateAgain(k, d, res, auto, weight, mat, EditCommands);
  }

  /** The update run again equals the first run whenever its command step,
      run again, does. */
  lemma CalculateAgain(k: Keys, d: Data, res: Option<string>, auto: bool, weight: Option<string>, mat: Option<string>, edit: Editor)
    requires k.card2 != k.card3
    requires CalculateWith(k, d, res, auto, weight, mat, edit).ok
    requires weight.Some? && weight.value != k.auto
    requires var d1 := if auto then WeightStep(k, d, auto, weight.value) else d;
      var m := if auto then mat.value else "";
      var r := CommandsStep(k, d1, res, auto, m, edit);
      CommandsStep(k, r.data, r.resolution, auto, m, edit) == r
    ensures var r := CalculateWith(k, d, res, auto, weight, mat, edit);
      CalculateWith(k, r.data, r.resolution, auto, weight, mat, edit) == r
  {
    var d1 := if auto then WeightStep(k, d, auto, weight.value) else d;
    var m := if auto then mat.value else "";
    var r := CommandsStep(k, d1, res, auto, m, edit);
    assert Has(d1, k.card3, k.commands);
    assert r.data[k.card2] == d1[k.card2];
    if auto {
      assert WeightStep(k, r.data, auto, weight.value) == r.data;
    }
  }

  // ---- process: the Card 3 commands ---------------------------------------------------------

  /** One Card 3 command as evidently intended: a name the table knows, with
      or without blanks around it, becomes its keyword text; anything else
      is kept as written. */
  function Expand(t: string, dict: string -> Option<string>): string {
    if dict(Strip(t)).Some? then dict(Strip(t)).value else t
  }

  /** As written: the stripped name is checked but the unstripped one looked
      up, so a padded name raises `KeyError` (`None`). */
  function ExpandAsWritten(t: string, dict: string -> Option<string>): Option<string> {
    if dict(Strip(t)).Some? then (if dict(t).Some? then Some(dict(t).value) else None) else Some(t)
  }

  /** The two agree on every command without blanks around it. */
  lemma ExpandAgrees(t: string, dict: string -> Option<string>)
    requires Strip(t) == t
    ensures ExpandAsWritten(t, dict) == Some(Expand(t, dict))
  {
  }

  /** A list written with a blank after its comma: the name ` TWENTY` is
      found once stripped, and then looked up unstripped. */
  lemma PaddedNameFails()
    ensures ExpandAsWritten(" TWENTY", PredefinedCommand) == None
    ensures Expand(" TWENTY", PredefinedCommand) == "USE TWENTY SIGNIFICAnt digits"
  {
    var t := " TWENTY";
    assert IsSpace(t[0]);
    assert t[1..] == "TWENTY";
    TrimStartOfNonSpace("TWENTY");
    TrimEndOfNonSpace("TWENTY");
    assert Strip(t) == "TWENTY";
  }

  /** `f` applied to every text of the list, in order. */
  function MapAll(ts: seq<string>, f: string -> string): (r: seq<string>)
    ensures |r| == |ts| && forall k :: 0 <= k < |ts| ==> r[k] == f(ts[k])
    decreases |ts|
  {
    if ts == [] then [] else MapAll(ts[..|ts| - 1], f) + [f(ts[|ts| - 1])]
  }

  /** The commands of a Card 3 list, each expanded. */
  function Expanded(ts: seq<string>, dict: string -> Option<string>): seq<string> {
    MapAll(ts, t => Expand(t, dict))
  }

  /** `f` applied to every text of the list, in order: `None` as soon as
      it fails on one. */
  function MapOrFail(ts: seq<string>, f: string -> Option<string>): (r: Option<seq<string>>)
    ensures r.None? <==> exists k :: 0 <= k < |ts| && f(ts[k]).None?
    ensures r.Some? ==> |r.value| == |ts| && forall k :: 0 <= k < |ts| ==> f(ts[k]) == Some(r.value[k])
    decreases |ts|
  {
    if ts == [] then Some([])
    else
      var init := ts[..|ts| - 1];
      assert forall k :: 0 <= k < |init| ==> init[k] == ts[k];
      var r0 := MapOrFail(init, f);
      var x := f(ts[|ts| - 1]);
      if r0.None? || x.None? then None
      else
        var r := r0.value + [x.value];
        assert forall k :: 0 <= k < |init| ==> r[k] == r0.value[k];
        Some(r)
  }

  /** The lookup of `process` for one command, as a function value. */
  function ExpandKey(dict: string -> Option<string>): string -> Option<string> {
    t => ExpandAsWritten(t, dict)
  }

  /** The commands of a Card 3 list as `process` expands them: `None` as
      soon as one of them raises `KeyError`. */
  function ExpandedAsWritten(ts: seq<string>, dict: string -> Option<string>): (r: Option<seq<string>>)
    ensures r.None? <==> exists k :: 0 <= k < |ts| && ExpandAsWritten(ts[k], dict).None?
    ensures r.Some? ==> |r.value| == |ts| && forall k :: 0 <= k < |ts| ==> ExpandAsWritten(ts[k], dict) == Some(r.value[k])
  {
    MapOrFail(ts, ExpandKey(dict))
  }

  /** The loop of `process` that collects the expanded commands. */
  method ExpandCommands(ts: seq<string>, dict: string -> Option<string>) returns (r: Option<seq<string>>)
    ensures r == ExpandedAsWritten(ts, dict)
  {
    var f := ExpandKey(dict);
    var cs := [];
    for i := 0 to |ts|
      invariant MapOrFail(ts[..i], f) == Some(cs)
    {
      var x := f(ts[i]);
      MapOrFailSnoc(ts, i, f);
      if x.None? {
        return None;
      }
      cs := cs + [x.value];
    }
    assert ts[..|ts|] == ts;
    r := Some(cs);
  }

  /** One more text: the list so far extended by its image, or `None` when
      that image fails; and the whole list fails once a prefix does. */
  lemma MapOrFailSnoc(ts: seq<string>, i: nat, f: string -> Option<string>)
    requires i < |ts|
    ensures MapOrFail(ts[..i + 1], f) ==
      if MapOrFail(ts[..i], f).None? || f(ts[i]).None? then None else Some(MapOrFail(ts[..i], f).value + [f(ts[i]).value])
    ensures f(ts[i]).None? ==> MapOrFail(ts, f).None?
  {
    assert ts[..i + 1][..i] == ts[..i];
  }

  /** On lists whose commands have no blanks around them, the expansion as
      written succeeds and agrees with the intended one. */
  lemma ExpandedAgrees(ts: seq<string>, dict: string -> Option<string>)
    requires forall k :: 0 <= k < |ts| ==> Strip(ts[k]) == ts[k]
    ensures ExpandedAsWritten(ts, dict) == Some(Expanded(ts, dict))
  {
    forall k | 0 <= k < |ts| ensures ExpandAsWritten(ts[k], dict) == Some(Expand(ts[k], dict)) {
      ExpandAgrees(ts[k], dict);
    }
    var r := ExpandedAsWritten(ts, dict);
    assert r.Some?;
    assert r.value == Expanded(ts, dict);
  }

  /** The line of a free-format card: the commands, one per line. */
  function CommandText(v: string, dict: string -> Option<string>): string {
    Join("\n", Expanded(Split(v, ','), dict)) + "\n"
  }

  /** The free-format card ends in a newline, and splitting the rest at the
      newlines gives the expanded commands back (when no keyword text has a
      newline in it). */
  lemma CommandTextLines(v: string, dict: string -> Option<string>)
    requires forall k :: 0 <= k < |Split(v, ',')| ==> '\n' !in Expand(Split(v, ',')[k], dict)
    ensures var t := CommandText(v, dict);
      t[|t| - 1] == '\n' && Split(t[..|t| - 1], '\n') == Expanded(Split(v, ','), dict)
  {
    var t := CommandText(v, dict);
    var es := Expanded(Split(v, ','), dict);
    assert t[..|t| - 1] == Join("\n", es);
    SplitJoin(es, '\n');
  }

  /** The line of the free-format card as `process` builds it: `None`
      where the lookup of a padded name raises `KeyError`. */
  function CommandTextAsWritten(v: string, dict: string -> Option<string>): Option<string> {
    var es := ExpandedAsWritten(Split(v, ','), dict);
    if es.Some? then Some(Join("\n", es.value) + "\n") else None
  }

  /** The free-format card as written ends in a newline, and splitting the
      rest at the newlines gives the expanded commands back (when no keyword
      text has a newline in it). */
  lemma CommandTextAsWrittenLines(v: string, dict: string -> Option<string>)
    requires ExpandedAsWritten(Split(v, ','), dict).Some?
    requires forall k :: 0 <= k < |Split(v, ',')| ==> '\n' !in ExpandedAsWritten(Split(v, ','), dict).value[k]
    ensures CommandTextAsWritten(v, dict).Some?
    ensures var t := CommandTextAsWritten(v, dict).value;
      t[|t| - 1] == '\n' && Split(t[..|t| - 1], '\n') == ExpandedAsWritten(Split(v, ','), dict).value
  {
    var es := ExpandedAsWritten(Split(v, ','), dict).value;
    var t := CommandTextAsWritten(v, dict).value;
    assert t[..|t| - 1] == Join("\n", es);
    SplitJoin(es, '\n');
  }

  /** The card as written fails exactly when some command of the list is a
      known name with blanks around it that is unknown unstripped; when no
      command has blanks around it, it is the intended card. */
  lemma CommandTextAgrees(v: string, dict: string -> Option<string>)
    ensures CommandTextAsWritten(v, dict).None? <==>
      exists k :: 0 <= k < |Split(v, ',')| && dict(Strip(Split(v, ',')[k])).Some? && dict(Split(v, ',')[k]).None?
    ensures (forall k :: 0 <= k < |Split(v, ',')| ==> Strip(Split(v, ',')[k]) == Split(v, ',')[k]) ==>
      CommandTextAsWritten(v, dict) == Some(CommandText(v, dict))
  {
    var ts := Split(v, ',');
    ExpandedFails(ts, dict);
    if forall k :: 0 <= k < |ts| ==> Strip(ts[k]) == ts[k] {
      ExpandedAgrees(ts, dict);
    }
  }

  lemma ExpandedFails(ts: seq<string>, dict: string -> Option<string>)
    ensures ExpandedAsWritten(ts, dict).None? <==>
      exists k :: 0 <= k < |ts| && dict(Strip(ts[k])).Some? && dict(ts[k]).None?
  {
    forall k | 0 <= k < |ts|
      ensures ExpandAsWritten(ts[k], dict).None? <==> dict(Strip(ts[k])).Some? && dict(ts[k]).None?
    {
      ExpandAsWrittenFails(ts[k], dict);
    }
  }

  lemma ExpandAsWrittenFails(t: string, dict: string -> Option<string>)
    ensures ExpandAsWritten(t, dict).None? <==> dict(Strip(t)).Some? && dict(t).None?
  {
  }

  // ---- process: one line per card -------------------------------------------------------------

  /** One sized parameter by its declared type: type A text, type I integer
      (`None` where `int()` raises), or a float, whose `str()` rendering is
      `float` (`None` where `float()` raises). Any other type raises
      `ValueError`. */
  function Piece(p: ParamSpec, v: string, float: string -> Option<string>): Option<string> {
    match p.kind
    case Str => Some(FormatA(v, p.width))
    case Int => if ParseInt(v).Some? then Some(FormatI(ParseInt(v).value, p.width)) else None
    case Float => if float(v).Some? then Some(RJust(float(v).value, p.width)) else None
    case Other => None
  }

  /** Parameter `j` raises: a sized one that cannot be formatted, or the
      free-format one whose text raises. */
  predicate Fails(ps: seq<ParamSpec>, vals: map<string, string>, free: bool,
                  piece: (ParamSpec, string) -> Option<string>, freeText: string -> Option<string>, j: int)
    requires ParamNames(ps) <= vals.Keys
  {
    0 <= j < |ps| &&
    if ps[j].width > 0 then piece(ps[j], vals[ps[j].name]).None? else free && freeText(vals[ps[j].name]).None?
  }

  /** The line of one card: the pieces of its sized parameters side by side;
      a parameter without width, in the free-format card, replaces the line
      with its text `freeText`. It fails exactly when one parameter raises:
      a sized one that cannot be formatted, or the free-format text. */
  function CardLineWith(ps: seq<ParamSpec>, vals: map<string, string>, free: bool,
                        piece: (ParamSpec, string) -> Option<string>, freeText: string -> Option<string>): (r: Option<string>)
    requires ParamNames(ps) <= vals.Keys
    ensures r.None? <==> exists j :: Fails(ps, vals, free, piece, freeText, j)
    decreases |ps|
  {
    if ps == [] then Some("")
    else
      var init := ps[..|ps| - 1];
      assert ParamNames(init) <= ParamNames(ps);
      assert forall j :: 0 <= j < |init| ==> init[j] == ps[j];
      assert forall j :: Fails(init, vals, free, piece, freeText, j) <==> Fails(ps, vals, free, piece, freeText, j) && j < |init|;
      var line := CardLineWith(init, vals, free, piece, freeText);
      var p := ps[|ps| - 1];
      assert p.name in ParamNames(ps);
      if line.None? then None
      else if p.width > 0 then
        var x := piece(p, vals[p.name]);
        if x.None? then assert Fails(ps, vals, free, piece, freeText, |ps| - 1); None
        else Some(line.value + x.value)
      else if free then
        var x := freeText(vals[p.name]);
        if x.None? then assert Fails(ps, vals, free, piece, freeText, |ps| - 1); None
        else Some(x.value)
      else line
  }

  function CardLine(ps: seq<ParamSpec>, vals: map<string, string>, free: bool, dict: string -> Option<string>, float: string -> Option<string>): Option<string>
    requires ParamNames(ps) <= vals.Keys
  {
    CardLineWith(ps, vals, free, (p, v) => Piece(p, v, float), v => CommandTextAsWritten(v, dict))
  }

  /** The inner loop of `process`. */
  method BuildCardLine(ps: seq<ParamSpec>, vals: map<string, string>, free: bool, dict: string -> Option<string>, float: string -> Option<string>) returns (r: Option<string>)
    requires ParamNames(ps) <= vals.Keys
    ensures r == CardLine(ps, vals, free, dict, float)
  {
    var line := "";
    for j := 0 to |ps|
      invariant ParamNames(ps[..j]) <= vals.Keys
      invariant CardLine(ps[..j], vals, free, dict, float) == Some(line)
    {
      assert ps[..j + 1][..j] == ps[..j];
      assert ParamNames(ps[..j + 1]) <= ParamNames(ps);
      var p := ps[j];
      assert p.name in ParamNames(ps);
      var v := vals[p.name];
      if p.width > 0 {
        var piece := Piece(p, v, float);
        if piece.None? {
          assert Fails(ps, vals, free, (p, v) => Piece(p, v, float), v => CommandTextAsWritten(v, dict), j);
          return None;
        }
        line := line + piece.value;
      } else if free {
        var cs := ExpandCommands(Split(v, ','), dict);
        if cs.None? {
          assert Fails(ps, vals, free, (p, v) => Piece(p, v, float), v => CommandTextAsWritten(v, dict), j);
          return None;
        }
        line := Join("\n", cs.value) + "\n";
      }
    }
    assert ps[..|ps|] == ps;
    r := Some(line);
  }

  /** The texts of the sized parameters, in order. */
  function PieceTexts(ps: seq<ParamSpec>, vals: map<string, string>, piece: (ParamSpec, string) -> Option<string>): (r: seq<string>)
    requires ParamNames(ps) <= vals.Keys
    requires forall j :: 0 <= j < |ps| ==> piece(ps[j], vals[ps[j].name]).Some?
    ensures |r| == |ps| && forall j :: 0 <= j < |ps| ==> r[j] == piece(ps[j], vals[ps[j].name]).value
    decreases |ps|
  {
    if ps == [] then []
    else
      var init := ps[..|ps| - 1];
      assert ParamNames(init) <= ParamNames(ps);
      assert forall j :: 0 <= j < |init| ==> init[j] == ps[j];
      assert ps[|ps| - 1].name in ParamNames(ps);
      PieceTexts(init, vals, piece) + [piece(ps[|ps| - 1], vals[ps[|ps| - 1].name]).value]
  }

  function Widths(ps: seq<ParamSpec>): (ws: seq<nat>)
    ensures |ws| == |ps| && forall j :: 0 <= j < |ps| ==> ws[j] == ps[j].width
  {
    seq(|ps|, j requires 0 <= j < |ps| => ps[j].width)
  }

  /** A card whose parameters are all sized and formattable is their texts
      side by side. */
  lemma {:induction false} CardLineConcat(ps: seq<ParamSpec>, vals: map<string, string>, free: bool,
                                          piece: (ParamSpec, string) -> Option<string>, freeText: string -> Option<string>)
    requires ParamNames(ps) <= vals.Keys
    requires forall j :: 0 <= j < |ps| ==> ps[j].width > 0 && piece(ps[j], vals[ps[j].name]).Some?
    ensures CardLineWith(ps, vals, free, piece, freeText) == Some(Concat(PieceTexts(ps, vals, piece)))
    decreases |ps|
  {
    if ps != [] {
      var init := ps[..|ps| - 1];
      assert ParamNames(init) <= ParamNames(ps);
      assert forall j :: 0 <= j < |init| ==> init[j] == ps[j];
      CardLineConcat(init, vals, free, piece, freeText);
      var xs := PieceTexts(init, vals, piece);
      assert PieceTexts(ps, vals, piece) == xs + [PieceTexts(ps, vals, piece)[|ps| - 1]];
      ConcatAppend(xs, PieceTexts(ps, vals, piece)[|ps| - 1]);
    }
  }

  /** When each piece fills exactly its width, parameter `j` occupies the
      columns after the widths of those before it, and the line is as wide
      as all the widths together. */
  lemma CardLineColumns(ps: seq<ParamSpec>, vals: map<string, string>, free: bool,
                        piece: (ParamSpec, string) -> Option<string>, freeText: string -> Option<string>)
    requires ParamNames(ps) <= vals.Keys
    requires forall j :: 0 <= j < |ps| ==> ps[j].width > 0 && piece(ps[j], vals[ps[j].name]).Some?
    requires forall j :: 0 <= j < |ps| ==> |piece(ps[j], vals[ps[j].name]).value| == ps[j].width
    ensures var r := CardLineWith(ps, vals, free, piece, freeText);
      r.Some? && |r.value| == Sum(Widths(ps)) &&
      forall j :: 0 <= j < |ps| ==>
        Offset(Widths(ps), j) + ps[j].width <= |r.value| &&
        r.value[Offset(Widths(ps), j)..Offset(Widths(ps), j) + ps[j].width] == piece(ps[j], vals[ps[j].name]).value
  {
    CardLineConcat(ps, vals, free, piece, freeText);
    PieceColumns(ps, vals, piece, CardLineWith(ps, vals, free, piece, freeText).value);
  }

  /** The pieces side by side, each in its own columns. */
  lemma PieceColumns(ps: seq<ParamSpec>, vals: map<string, string>, piece: (ParamSpec, string) -> Option<string>, t: string)
    requires ParamNames(ps) <= vals.Keys
    requires forall j :: 0 <= j < |ps| ==> piece(ps[j], vals[ps[j].name]).Some?
    requires forall j :: 0 <= j < |ps| ==> |piece(ps[j], vals[ps[j].name]).value| == ps[j].width
    requires t == Concat(PieceTexts(ps, vals, piece))
    ensures |t| == Sum(Widths(ps))
    ensures forall j :: 0 <= j < |ps| ==>
      Offset(Widths(ps), j) + ps[j].width <= |t| &&
      t[Offset(Widths(ps), j)..Offset(Widths(ps), j) + ps[j].width] == piece(ps[j], vals[ps[j].name]).value
  {
    var xs, ws := PieceTexts(ps, vals, piece), Widths(ps);
    forall j | 0 <= j < |xs| ensures |xs[j]| == ws[j] {
      assert xs[j] == piece(ps[j], vals[ps[j].name]).value;
    }
    ConcatWidth(t, xs, ws, Sum(ws));
    PieceTextColumns(ps, vals, piece, t, xs, ws);
  }

  lemma PieceTextColumns(ps: seq<ParamSpec>, vals: map<string, string>, piece: (ParamSpec, string) -> Option<string>,
                     t: string, xs: seq<string>, ws: seq<nat>)
    requires ParamNames(ps) <= vals.Keys
    requires forall j :: 0 <= j < |ps| ==> piece(ps[j], vals[ps[j].name]).Some?
    requires xs == PieceTexts(ps, vals, piece) && ws == Widths(ps)
    requires forall j :: 0 <= j < |xs| ==> Offset(ws, j) + ws[j] <= |t| && t[Offset(ws, j)..Offset(ws, j) + ws[j]] == xs[j]
    ensures forall j :: 0 <= j < |ps| ==>
      Offset(ws, j) + ps[j].width <= |t| && t[Offset(ws, j)..Offset(ws, j) + ps[j].width] == piece(ps[j], vals[ps[j].name]).value
  {
    forall j | 0 <= j < |ps|
      ensures Offset(ws, j) + ps[j].width <= |t| && t[Offset(ws, j)..Offset(ws, j) + ps[j].width] == piece(ps[j], vals[ps[j].name]).value
    {
      assert ws[j] == ps[j].width && xs[j] == piece(ps[j], vals[ps[j].name]).value;
    }
  }

  /** A sized integer parameter whose text fits its width reads back, from
      its own columns, as the integer it was given. */
  lemma IntPieceReadsBack(p: ParamSpec, v: string, float: string -> Option<string>)
    requires p.kind == Int && ParseInt(v).Some?
    ensures Piece(p, v, float).Some? && ParseInt(Piece(p, v, float).value) == ParseInt(v)
  {
    FormatIReadsBack(ParseInt(v).value, p.width);
  }

  // ---- process: the cards ------------------------------------------------------------------

  /** Every card of the table is in `data` with every parameter it declares. */
  ghost predicate Covers(t: Table, d: Data) {
    forall k :: 0 <= k < |t| ==> t[k].name in d && ParamNames(t[k].params) <= d[t[k].name].Keys
  }

  lemma ShapedCovers(t: Table, d: Data)
    requires Shaped(t, d)
    ensures Covers(t, d)
  {
  }

  /** The lines of all cards, the card named `free` in free format. It fails
      exactly when the line of some card fails, and otherwise has one line
      per card. */
  function CardLines(t: Table, d: Data, free: string, dict: string -> Option<string>, float: string -> Option<string>): (r: Option<seq<string>>)
    requires Covers(t, d)
    ensures r.Some? ==> |r.value| == |t|
    ensures r.Some? ==> forall k :: 0 <= k < |t| ==> CardLine(t[k].params, d[t[k].name], t[k].name == free, dict, float) == Some(r.value[k])
    ensures r.None? <==> exists k :: 0 <= k < |t| && CardLine(t[k].params, d[t[k].name], t[k].name == free, dict, float).None?
    decreases |t|
  {
    if t == [] then Some([])
    else
      var init := t[..|t| - 1];
      assert forall k :: 0 <= k < |init| ==> init[k] == t[k];
      var ls := CardLines(init, d, free, dict, float);
      var c := t[|t| - 1];
      var line := CardLine(c.params, d[c.name], c.name == free, dict, float);
      if ls.None? || line.None? then None
      else
        var r := ls.value + [line.value];
        assert forall k :: 0 <= k < |init| ==> r[k] == ls.value[k];
        Some(r)
  }

  /** The outer loop of `process`. */
  method BuildCardLines(t: Table, d: Data, free: string, dict: string -> Option<string>, float: string -> Option<string>) returns (r: Option<seq<string>>)
    requires Covers(t, d)
    ensures r == CardLines(t, d, free, dict, float)
  {
    var lines: seq<string> := [];
    for k := 0 to |t|
      invariant CoversPrefix(t, k, d)
      invariant CardLines(t[..k], d, free, dict, float) == Some(lines)
    {
      CardLinesStep(t, k, d, free, dict, float);
      var c := t[k];
      var line := BuildCardLine(c.params, d[c.name], c.name == free, dict, float);
      if line.None? {
        return None;
      }
      lines := lines + [line.value];
    }
    assert t[..|t|] == t;
    r := Some(lines);
  }

  ghost predicate CoversPrefix(t: Table, k: nat, d: Data) {
    k <= |t| && Covers(t[..k], d)
  }

  /** One more card of the table, as the outer loop of `process` sees it. */
  lemma CardLinesStep(t: Table, k: nat, d: Data, free: string, dict: string -> Option<string>, float: string -> Option<string>)
    requires Covers(t, d) && k < |t|
    ensures CoversPrefix(t, k, d) && CoversPrefix(t, k + 1, d)
    ensures CardLines(t[..k + 1], d, free, dict, float) ==
      var line := CardLine(t[k].params, d[t[k].name], t[k].name == free, dict, float);
      var ls := CardLines(t[..k], d, free, dict, float);
      if ls.None? || line.None? then None else Some(ls.value + [line.value])
  {
    assert forall j :: 0 <= j < k + 1 ==> t[..k + 1][j] == t[j];
    assert t[..k + 1][..k] == t[..k];
  }

  /** `processed_cards`: the card lines, a blank line, and the resolution
      block when one was set. */
  function Processed(lines: seq<string>, res: Option<string>): (r: seq<string>)
    ensures |r| == |lines| + 1 + (if res.Some? then 1 else 0)
    ensures r[..|lines|] == lines && r[|lines|] == "\n"
    ensures res.Some? ==> r[|lines| + 1] == res.value
  {
    lines + ["\n"] + (if res.Some? then [res.value] else [])
  }

  /** The steps of `_update_and_calculate_values` in order, with the
      command loop as written. */
  method UpdateValues(k: Keys, d: Data, res: Option<string>, auto: bool, weight: Option<string>, mat: Option<string>) returns (c: Calc)
    ensures c == CalculateWith(k, d, res, auto, weight, mat, EditAsWritten)
  {
    if !Has(d, k.card2, k.elmnt) || weight.None? || (auto && !Has(d, k.card2, k.aw)) {
      return Calc(d, res, false);
    }
    var d1 := d;
    if auto && d[k.card2][k.aw] == k.auto {
      d1 := Put(d, k.card2, k.aw, weight.value);
    }
    if (auto && mat.None?) || !Has(d1, k.card3, k.commands) {
      return Calc(d1, res, false);
    }
    var cs, found := PopWalkList(Split(d1[k.card3][k.commands], ','), auto, if auto then mat.value else "");
    var res1 := res;
    if found.Some? {
      res1 := found;
    }
    c := Calc(Put(d1, k.card3, k.commands, Join(",", cs)), res1, true);
  }

  /** `processed_cards` from the card lines, Card 3 in free format, or
      `None` where formatting raises. */
  function ProcessedCardsWith(t: Table, d: Data, free: string, dict: string -> Option<string>, float: string -> Option<string>, res: Option<string>): Option<seq<string>>
    requires Covers(t, d)
  {
    var ls := CardLines(t, d, free, dict, float);
    if ls.Some? then Some(Processed(ls.value, res)) else None
  }

  function ProcessedCards(t: Table, d: Data, dict: string -> Option<string>, float: string -> Option<string>, res: Option<string>): Option<seq<string>>
    requires Covers(t, d)
  {
    ProcessedCardsWith(t, d, "Card3", dict, float, res)
  }

  method BuildProcessed(t: Table, d: Data, free: string, dict: string -> Option<string>, float: string -> Option<string>, res: Option<string>) returns (r: Option<seq<string>>)
    requires Covers(t, d)
    ensures r == ProcessedCardsWith(t, d, free, dict, float, res)
  {
    var lines := BuildCardLines(t, d, free, dict, float);
    if lines.Some? {
      r := Some(Processed(lines.value, res));
    } else {
      r := None;
    }
  }

  // ---- the input file --------------------------------------------------------------------

  /** `InputFile`: the default table, `data`, the predefined commands, the
      resolution block once one is set, and `processed_cards` once
      `process` has run. */
  class InputFile {
    var defaults: Table
    var data: Data
    var commandsDict: string -> Option<string>
    var resolution: Option<string>
    var processed: Option<seq<string>>

    /** `data` keeps the cards and parameters of the table. */
    ghost predicate Valid()
      reads this
    {
      WellFormed(defaults) && Shaped(defaults, data) && Covers(defaults, data)
    }

    /** `__init__` up to its last step, with the configuration file already
        read into sections; the update of computed values, which can raise,
        is the separate call `UpdateAndCalculateValues` (`NewInputFile`
        makes both). */
    constructor(config: Config)
      ensures Valid()
      ensures defaults == DefaultTable() && data == Merge(Defaults(DefaultTable()), config - {"Card10"})
      ensures commandsDict == PredefinedCommand && resolution.None? && processed.None?
    {
      defaults := [];
      data := map[];
      commandsDict := _ => None;
      resolution := None;
      processed := None;
      new;
      SetDefaultParams();
      UpdateDefaultParamsWithConfig(config - {"Card10"});
      SetPredefinedCommands();
    }

    /** `_set_default_params`. */
    method SetDefaultParams()
      modifies this
      ensures Valid() && defaults == DefaultTable() && data == Defaults(defaults)
      ensures commandsDict == old(commandsDict) && resolution == old(resolution) && processed == old(processed)
    {
      DefaultTableWellFormed();
      SetDefaultsFrom(DefaultTable());
    }

    method SetDefaultsFrom(t: Table)
      requires WellFormed(t)
      modifies this
      ensures Valid() && defaults == t && data == Defaults(t)
      ensures commandsDict == old(commandsDict) && resolution == old(resolution) && processed == old(processed)
    {
      defaults := t;
      data := BuildDefaults(t);
      DefaultsContents(t);
      ShapedCovers(t, data);
    }

    /** `_update_default_params_with_config`. */
    method UpdateDefaultParamsWithConfig(config: Config)
      requires Valid()
      modifies this
      ensures Valid() && data == Merge(old(data), config)
      ensures defaults == old(defaults) && commandsDict == old(commandsDict)
      ensures resolution == old(resolution) && processed == old(processed)
    {
      MergeKeepsShape(defaults, data, config);
      data := MergeConfig(data, config);
      ShapedCovers(defaults, data);
    }

    /** `_set_predefined_commands`. */
    method SetPredefinedCommands()
      modifies this
      ensures commandsDict == PredefinedCommand
      ensures defaults == old(defaults) && data == old(data)
      ensures resolution == old(resolution) && processed == old(processed)
    {
      commandsDict := PredefinedCommand;
    }

    /** `_update_and_calculate_values`, the looked-up atomic weight and
        material number given. */
    method UpdateAndCalculateValues(auto: bool, weight: Option<string>, mat: Option<string>) returns (ok: bool)
      requires Valid()
      modifies this
      ensures Valid()
      ensures var c := Calculate(old(data), old(resolution), auto, weight, mat);
        data == c.data && resolution == c.resolution && ok == c.ok
      ensures defaults == old(defaults) && commandsDict == old(commandsDict) && processed == old(processed)
    {
      var c := UpdateValues(SammyKeys(), data, resolution, auto, weight, mat);
      CalculateKeepsShape(defaults, SammyKeys(), data, resolution, auto, weight, mat, EditAsWritten);
      data, resolution, ok := c.data, c.resolution, c.ok;
      ShapedCovers(defaults, data);
    }

    /** `process`: the update again, then one line per card, a blank line,
        and the resolution block. Floats are printed by `float`. */
    method Process(auto: bool, weight: Option<string>, mat: Option<string>, float: string -> Option<string>) returns (ok: bool)
      requires Valid()
      modifies this
      ensures Valid()
      ensures var c := Calculate(old(data), old(resolution), auto, weight, mat);
        data == c.data && resolution == c.resolution && (!c.ok ==> !ok && processed == old(processed))
      ensures Calculate(old(data), old(resolution), auto, weight, mat).ok ==>
        var p := ProcessedCards(defaults, data, commandsDict, float, resolution);
        ok == p.Some? && processed == if ok then p else old(processed)
      ensures defaults == old(defaults) && commandsDict == old(commandsDict)
    {
      ok := UpdateAndCalculateValues(auto, weight, mat);
      if ok {
        ok := FormatCards(float);
      }
    }

    /** The formatting half of `process`. */
    method FormatCards(float: string -> Option<string>) returns (ok: bool)
      requires Valid()
      modifies this
      ensures Valid()
      ensures var p := ProcessedCards(defaults, data, commandsDict, float, resolution);
        ok == p.Some? && processed == if ok then p else old(processed)
      ensures defaults == old(defaults) && data == old(data)
      ensures commandsDict == old(commandsDict) && resolution == old(resolution)
    {
      var p := BuildProcessed(defaults, data, "Card3", commandsDict, float, resolution);
      ok := p.Some?;
      if ok {
        processed := p;
      }
    }
  }
  /** `InputFile(config_file, auto_update)` as a whole: the constructor,
      then its last step `_update_and_calculate_values(auto_update)`; `null`
      where that step raises, so that no object is made. */
  method NewInputFile(config: Config, auto: bool, weight: Option<string>, mat: Option<string>) returns (f: InputFile?)
    ensures f != null <==> Calculate(Merge(Defaults(DefaultTable()), config - {"Card10"}), None, auto, weight, mat).ok
    ensures f != null ==> fresh(f) && f.Valid() && f.defaults == DefaultTable()
    ensures f != null ==> var c := Calculate(Merge(Defaults(DefaultTable()), config - {"Card10"}), None, auto, weight, mat);
      f.data == c.data && f.resolution == c.resolution
    ensures f != null ==> f.commandsDict == PredefinedCommand && f.processed.None?
  {
    var g := new InputFile(config);
    var ok := g.UpdateAndCalculateValues(auto, weight, mat);
    f := if ok then g else null;
  }
}
