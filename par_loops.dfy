/** The loops of the in-place edits, each written as the source iterates
    and proved to compute the function that specifies it. */
module ParLoops {
  import opened Text
  import opened ParFormat
  import opened ChannelRadii
  import opened ParData
  import opened ParEdit
  import opened ParWeight

  // ---- _bump_group_number -------------------------------------------------------

  /** Adds the increment to each spin group's number, written back right
      aligned in three columns; a number that does not parse stops the loop
      with the earlier groups already updated. */
  method BumpSpinGroups(gs0: seq<SpinGroup>, inc: int) returns (gs: seq<SpinGroup>, ok: bool)
    ensures (gs, ok) == UpdateFrom(gs0, 0, GroupBump(inc))
  {
    gs, ok := BumpSpinGroupsWith(gs0, inc, ParseInt, NumeralIn(3));
  }

  /** The loop above, with the integer parse and the rendering as parameters. */
  method BumpSpinGroupsWith(gs0: seq<SpinGroup>, inc: int, parse: string -> Option<int>, render: int -> string)
    returns (gs: seq<SpinGroup>, ok: bool)
    ensures (gs, ok) == UpdateFrom(gs0, 0, GroupBumpWith(inc, parse, render))
  {
    gs := gs0;
    var i := 0;
    while i < |gs|
      invariant i <= |gs| && UpdateFrom(gs, i, GroupBumpWith(inc, parse, render)) == UpdateFrom(gs0, 0, GroupBumpWith(inc, parse, render))
      decreases |gs| - i
    {
      var info := gs[i].info;
      if "group_number" !in info {
        return gs, false;
      }
      var v := parse(info["group_number"]);
      if v.None? {
        return gs, false;
      }
      gs := gs[i := gs[i].(info := info["group_number" := render(v.value + inc)])];
      i := i + 1;
    }
    ok := true;
  }

  /** Adds the increment to the group id of each channel group of one radius card. */
  method ShiftChannelGroups(gs0: seq<ChannelGroup>, inc: int) returns (gs: seq<ChannelGroup>)
    ensures gs == ShiftIds(gs0, inc)
  {
    gs := gs0;
    for k := 0 to |gs0|
      invariant |gs| == |gs0|
      invariant forall j :: 0 <= j < k ==> gs[j] == gs0[j].(id := gs0[j].id + inc)
      invariant forall j :: k <= j < |gs0| ==> gs[j] == gs0[j]
    {
      gs := gs[k := gs[k].(id := gs[k].id + inc)];
    }
  }

  /** The loop above, applied to every radius card in turn. */
  method ShiftRadii(rs0: seq<Radius>, inc: int) returns (rs: seq<Radius>)
    ensures rs == ShiftGroupIds(rs0, inc)
  {
    rs := rs0;
    for k := 0 to |rs0|
      invariant |rs| == |rs0|
      invariant forall j :: 0 <= j < k ==> rs[j] == rs0[j].(groups := ShiftIds(rs0[j].groups, inc))
      invariant forall j :: k <= j < |rs0| ==> rs[j] == rs0[j]
    {
      var groups := ShiftChannelGroups(rs[k].groups, inc);
      rs := rs[k := rs[k].(groups := groups)];
    }
  }

  /** `_bump_group_number` over the data: a missing list raises. */
  method BumpGroups(d: Data, inc: int) returns (r: Data, ok: bool)
    ensures (r, ok) == BumpGroupNumbers(d, inc)
  {
    if d.spin.None? {
      return d, false;
    }
    var gs, done := BumpSpinGroups(d.spin.value, inc);
    r := d.(spin := Some(gs));
    if !done || r.radii.None? {
      return r, false;
    }
    var rs := ShiftRadii(r.radii.value, inc);
    r, ok := r.(radii := Some(rs)), true;
  }

  // ---- _bump_igroup_number ------------------------------------------------------

  /** Adds the increment to each resonance's `igroup`, written back right
      aligned in twelve columns; a value that does not parse stops the loop. */
  method BumpResonances(rs0: seq<Record>, inc: int) returns (rs: seq<Record>, ok: bool)
    ensures (rs, ok) == UpdateFrom(rs0, 0, RecordBump("igroup", inc, ParseInt, NumeralIn(12)))
  {
    rs, ok := BumpResonancesWith(rs0, inc, ParseInt, NumeralIn(12));
  }

  method BumpResonancesWith(rs0: seq<Record>, inc: int, parse: string -> Option<int>, render: int -> string)
    returns (rs: seq<Record>, ok: bool)
    ensures (rs, ok) == UpdateFrom(rs0, 0, RecordBump("igroup", inc, parse, render))
  {
    rs := rs0;
    var i := 0;
    while i < |rs|
      invariant i <= |rs|
      invariant UpdateFrom(rs, i, RecordBump("igroup", inc, parse, render)) == UpdateFrom(rs0, 0, RecordBump("igroup", inc, parse, render))
      decreases |rs| - i
    {
      if "igroup" !in rs[i] {
        return rs, false;
      }
      var v := parse(rs[i]["igroup"]);
      if v.None? {
        return rs, false;
      }
      rs := rs[i := rs[i]["igroup" := render(v.value + inc)]];
      i := i + 1;
    }
    ok := true;
  }

  method BumpIgroups(d: Data, inc: int) returns (r: Data, ok: bool)
    ensures (r, ok) == BumpIgroupNumbers(d, inc)
  {
    if d.resonances.None? {
      return d, false;
    }
    var rs;
    rs, ok := BumpResonances(d.resonances.value, inc);
    r := d.(resonances := Some(rs));
  }

  // ---- _rename ------------------------------------------------------------------

  /** Gives the new name to each channel of one group whose stripped name
      equals the stripped old name. */
  method RenameChannels(chs0: seq<Record>, oldName: string, newName: string) returns (chs: seq<Record>)
    ensures chs == RenameInChannels(chs0, oldName, newName, Strip)
  {
    chs := RenameChannelsWith(chs0, oldName, newName, Strip);
  }

  /** The loop above, comparing names after `norm`. */
  method RenameChannelsWith(chs0: seq<Record>, oldName: string, newName: string, norm: string -> string) returns (chs: seq<Record>)
    ensures chs == RenameInChannels(chs0, oldName, newName, norm)
  {
    chs := chs0;
    for k := 0 to |chs0|
      invariant |chs| == |chs0|
      invariant forall j :: 0 <= j < k ==> chs[j] == RenameChannel(chs0[j], oldName, newName, norm)
      invariant forall j :: k <= j < |chs0| ==> chs[j] == chs0[j]
    {
      if "channel_name" in chs[k] && norm(chs[k]["channel_name"]) == norm(oldName) {
        chs := chs[k := chs[k]["channel_name" := newName]];
      }
    }
  }

  /** The loop above, applied to every spin group in turn. */
  method RenameGroups(gs0: seq<SpinGroup>, oldName: string, newName: string) returns (gs: seq<SpinGroup>)
    ensures gs == RenameInGroups(gs0, oldName, newName, Strip)
  {
    gs := gs0;
    for k := 0 to |gs0|
      invariant |gs| == |gs0|
      invariant forall j :: 0 <= j < k ==> gs[j] == gs0[j].(channels := RenameInChannels(gs0[j].channels, oldName, newName, Strip))
      invariant forall j :: k <= j < |gs0| ==> gs[j] == gs0[j]
    {
      var chs := RenameChannels(gs[k].channels, oldName, newName);
      gs := gs[k := gs[k].(channels := chs)];
    }
  }

  /** `_rename` as written: the first loop renames the channels of each
      pair in turn, and a second loop then gives every pair the new name of
      the last iteration. */
  method RenamePairs(d: Data, selfName: string, stem: string) returns (r: Option<(Data, string)>)
    ensures r == RenamedAsWritten(d, selfName, stem)
  {
    if d.pairs.None? || d.pairs.value == [] || d.spin.None? {
      return None;
    }
    var ps0 := d.pairs.value;
    var n := |ps0|;
    ghost var names := IterationNames(selfName, stem, n);
    var gs := d.spin.value;
    var name, newName := "", "";
    for k := 0 to n
      invariant ChannelsRenamedFrom(gs, ps0, names, k, Strip) == ChannelsRenamedFrom(d.spin.value, ps0, names, 0, Strip)
      invariant k > 0 ==> (name, newName) == NewNames(selfName, stem, n, k - 1)
    {
      var oldName := Get(ps0[k], "name");
      name, newName := NewNames(selfName, stem, n, k).0, NewNames(selfName, stem, n, k).1;
      gs := RenameGroups(gs, oldName, newName);
    }
    assert newName == names[n - 1];
    var ps := ps0;
    for k := 0 to n
      invariant |ps| == n
      invariant forall j :: 0 <= j < k ==> ps[j] == ps0[j]["name" := newName]
      invariant forall j :: k <= j < n ==> ps[j] == ps0[j]
    {
      ps := ps[k := ps[k]["name" := newName]];
    }
    assert ps == PairsNamed(ps0, LastNames(names));
    r := Some((d.(pairs := Some(ps), spin := Some(gs)), name));
  }

  // ---- _update_isotopic_weight and _update_isotopic_masses_abundance -------------

  /** Stores the abundance text in the heading record of every spin group. */
  method StampGroups(gs0: seq<SpinGroup>, text: string) returns (gs: seq<SpinGroup>)
    ensures gs == WithAbundance(gs0, text)
  {
    gs := gs0;
    for k := 0 to |gs0|
      invariant |gs| == |gs0|
      invariant forall j :: 0 <= j < k ==> gs[j] == gs0[j].(info := gs0[j].info["isotopic_abundance" := text])
      invariant forall j :: k <= j < |gs0| ==> gs[j] == gs0[j]
    {
      gs := gs[k := gs[k].(info := gs[k].info["isotopic_abundance" := text])];
    }
  }

  /** Stores the abundance text in every isotopic-mass card. */
  method StampCards(cs0: seq<Record>, text: string) returns (cs: seq<Record>)
    ensures cs == WithCardAbundance(cs0, text)
  {
    cs := cs0;
    for k := 0 to |cs0|
      invariant |cs| == |cs0|
      invariant forall j :: 0 <= j < k ==> cs[j] == cs0[j]["abundance" := text]
      invariant forall j :: k <= j < |cs0| ==> cs[j] == cs0[j]
    {
      cs := cs[k := cs[k]["abundance" := text]];
    }
  }

  /** The group-list layout as written: the first 46 columns, then one
      continuation and one 46-column piece for each further whole piece, the
      count being the length divided by 46 rounded down. */
  method LayOutGroups(s: string) returns (out: string)
    ensures out == GroupListAsWritten(s)
  {
    var last := |s| / 46;
    out := Slice(s, 0, 46);
    var l := 1;
    while l < last
      invariant out + PiecesBetween(s, l, last) == GroupListAsWritten(s)
      decreases last - l
    {
      PiecesStep(s, out, l, last);
      out := out + Continuation() + Piece(s, l);
      l := l + 1;
    }
  }

  lemma PiecesStep(s: string, out: string, l: nat, last: nat)
    requires l < last
    ensures out + PiecesBetween(s, l, last) == out + Continuation() + Piece(s, l) + PiecesBetween(s, l + 1, last)
  {
    var c, p, rest := Continuation(), Piece(s, l), PiecesBetween(s, l + 1, last);
    assert PiecesBetween(s, l, last) == c + p + rest;
    assert out + (c + p + rest) == out + c + p + rest;
  }
}
