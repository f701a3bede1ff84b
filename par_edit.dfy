/** The in-place edits of `ParFile`: renumbering groups, renaming the
    particle pairs, and stamping the isotope's weight and abundance. */
module ParEdit {
  import opened Text
  import opened ParFormat
  import opened ChannelRadii
  import opened ParData

  // ---- updating a list in place, stopping at the first failure --------------

  /** A `for x in xs` loop that updates each element in place from index `k`
      on; when the update of an element raises, the elements before it stay
      updated and the rest keep their old values. */
  function UpdateFrom<T>(xs: seq<T>, k: nat, f: T -> Option<T>): (r: (seq<T>, bool))
    ensures |r.0| == |xs|
    decreases |xs| - k
  {
    if k >= |xs| then (xs, true)
    else
      match f(xs[k])
      case None => (xs, false)
      case Some(y) => UpdateFrom(xs[k := y], k + 1, f)
  }

  /** The first index from `k` on whose update raises, or `|xs|`. */
  function FirstRefused<T>(xs: seq<T>, k: nat, f: T -> Option<T>): (j: nat)
    requires k <= |xs|
    ensures k <= j <= |xs|
    decreases |xs| - k
  {
    if k == |xs| || f(xs[k]).None? then k else FirstRefused(xs, k + 1, f)
  }

  lemma {:induction false} FirstRefusedAgree<T>(xs: seq<T>, ys: seq<T>, k: nat, f: T -> Option<T>)
    requires k <= |xs| == |ys| && forall j :: k <= j < |xs| ==> xs[j] == ys[j]
    ensures FirstRefused(xs, k, f) == FirstRefused(ys, k, f)
    decreases |xs| - k
  {
    if k < |xs| && f(xs[k]).Some? {
      FirstRefusedAgree(xs, ys, k + 1, f);
    }
  }

  /** What the loop leaves: the elements before the first refused one are
      updated, the others unchanged, and it succeeds exactly when none is refused. */
  lemma {:induction false} UpdateFromSpec<T>(xs: seq<T>, k: nat, f: T -> Option<T>)
    requires k <= |xs|
    ensures var r := UpdateFrom(xs, k, f); var b := FirstRefused(xs, k, f);
      && (r.1 <==> b == |xs|)
      && (b < |xs| ==> f(xs[b]).None?)
      && (forall j :: 0 <= j < k ==> r.0[j] == xs[j])
      && (forall j :: k <= j < b ==> f(xs[j]).Some? && r.0[j] == f(xs[j]).value)
      && (forall j :: b <= j < |xs| ==> r.0[j] == xs[j])
    decreases |xs| - k
  {
    if k < |xs| && f(xs[k]).Some? {
      var ys := xs[k := f(xs[k]).value];
      UpdateFromSpec(ys, k + 1, f);
      FirstRefusedAgree(xs, ys, k + 1, f);
    }
  }

  /** When no update raises, the loop maps every element. */
  lemma UpdateAll<T>(xs: seq<T>, f: T -> Option<T>)
    requires forall j :: 0 <= j < |xs| ==> f(xs[j]).Some?
    ensures UpdateFrom(xs, 0, f).1
    ensures forall j :: 0 <= j < |xs| ==> UpdateFrom(xs, 0, f).0[j] == f(xs[j]).value
  {
    UpdateFromSpec(xs, 0, f);
    NoneRefused(xs, 0, f);
  }

  lemma UpdateAllTo<T>(xs: seq<T>, f: T -> Option<T>, ys: seq<T>)
    requires |ys| == |xs| && forall j :: 0 <= j < |xs| ==> f(xs[j]) == Some(ys[j])
    ensures UpdateFrom(xs, 0, f) == (ys, true)
  {
    UpdateAll(xs, f);
    assert UpdateFrom(xs, 0, f).0 == ys;
  }

  /** Two update loops in a row are one loop with the composed update,
      when no update raises. */
  lemma UpdateThen<T>(xs: seq<T>, f: T -> Option<T>, g: T -> Option<T>, h: T -> Option<T>)
    requires forall j :: 0 <= j < |xs| ==> f(xs[j]).Some? && h(xs[j]).Some? && g(f(xs[j]).value) == h(xs[j])
    ensures UpdateFrom(UpdateFrom(xs, 0, f).0, 0, g).0 == UpdateFrom(xs, 0, h).0
  {
    UpdateAll(xs, f);
    var ys := UpdateFrom(xs, 0, f).0;
    assert forall j :: 0 <= j < |ys| ==> ys[j] == f(xs[j]).value;
    UpdateAll(ys, g);
    UpdateAll(xs, h);
  }

  lemma {:induction false} NoneRefused<T>(xs: seq<T>, k: nat, f: T -> Option<T>)
    requires k <= |xs| && forall j :: k <= j < |xs| ==> f(xs[j]).Some?
    ensures FirstRefused(xs, k, f) == |xs|
    decreases |xs| - k
  {
    if k < |xs| {
      NoneRefused(xs, k + 1, f);
    }
  }

  // ---- _bump_group_number and _bump_igroup_number -----------------------------

  /** `f"{v:>w}"`: the decimal text of `v`, right-justified in `w` columns. */
  function Numeral(v: int, w: nat): string {
    RJust(IntToString(v), w)
  }

  function NumeralIn(w: nat): int -> string {
    v => Numeral(v, w)
  }

  /** A rendering of integers as text that `parse` reads back. */
  ghost predicate ReadsBack(parse: string -> Option<int>, render: int -> string) {
    forall v :: parse(render(v)) == Some(v)
  }

  /** `int()` reads back the right-justified decimal text of a number. */
  lemma ParseNumeral(v: int, w: nat)
    ensures ParseInt(Numeral(v, w)) == Some(v)
  {
    ParseIntOfIntToString(v);
    ParseIntRJust(IntToString(v), w);
  }

  lemma NumeralReadsBack(w: nat)
    ensures ReadsBack(ParseInt, NumeralIn(w))
  {
    forall v ensures ParseInt(NumeralIn(w)(v)) == Some(v) {
      ParseNumeral(v, w);
    }
  }

  /** `rec[key] = render(parse(rec[key]) + inc)`; `None` on a missing key
      or text `parse` refuses. The bumps below use `int()` and `f"{…:>w}"`;
      the lemmas hold for any rendering the parser reads back. */
  function BumpWith(rec: Record, key: string, inc: int, parse: string -> Option<int>, render: int -> string): Option<Record> {
    if key !in rec then None
    else
      match parse(rec[key])
      case None => None
      case Some(v) => Some(rec[key := render(v + inc)])
  }

  function RecordBump(key: string, inc: int, parse: string -> Option<int>, render: int -> string): Record -> Option<Record> {
    r => BumpWith(r, key, inc, parse, render)
  }

  function GroupBumpWith(inc: int, parse: string -> Option<int>, render: int -> string): SpinGroup -> Option<SpinGroup> {
    (g: SpinGroup) =>
      match BumpWith(g.info, "group_number", inc, parse, render)
      case None => None
      case Some(info) => Some(g.(info := info))
  }

  /** The per-element update of the spin-group loop: `group_number` as `f"{…:>3}"`. */
  function GroupBump(inc: int): SpinGroup -> Option<SpinGroup> {
    GroupBumpWith(inc, ParseInt, NumeralIn(3))
  }

  /** The channel-radii records with every group number raised by `inc`. */
  function ShiftGroupIds(rs: seq<Radius>, inc: int): (r: seq<Radius>)
    ensures |r| == |rs|
  {
    seq(|rs|, k requires 0 <= k < |rs| => rs[k].(groups := ShiftIds(rs[k].groups, inc)))
  }

  function ShiftIds(gs: seq<ChannelGroup>, inc: int): (r: seq<ChannelGroup>)
    ensures |r| == |gs|
  {
    seq(|gs|, j requires 0 <= j < |gs| => gs[j].(id := gs[j].id + inc))
  }

  /** `_bump_group_number`: the spin groups, then the channel-radii groups.
      `false` where it raises; what was updated before stays updated. */
  function BumpGroupNumbers(d: Data, inc: int): (Data, bool) {
    RenumberGroups(d, inc, ParseInt, NumeralIn(3))
  }

  function RenumberGroups(d: Data, inc: int, parse: string -> Option<int>, render: int -> string): (Data, bool) {
    if d.spin.None? then (d, false)
    else
      var u := UpdateFrom(d.spin.value, 0, GroupBumpWith(inc, parse, render));
      var d1 := d.(spin := Some(u.0));
      if !u.1 || d1.radii.None? then (d1, false)
      else (d1.(radii := Some(ShiftGroupIds(d1.radii.value, inc))), true)
  }

  /** `_bump_igroup_number`. */
  function BumpIgroupNumbers(d: Data, inc: int): (Data, bool) {
    RenumberResonances(d, inc, ParseInt, NumeralIn(12))
  }

  function RenumberResonances(d: Data, inc: int, parse: string -> Option<int>, render: int -> string): (Data, bool) {
    if d.resonances.None? then (d, false)
    else
      var u := UpdateFrom(d.resonances.value, 0, RecordBump("igroup", inc, parse, render));
      (d.(resonances := Some(u.0)), u.1)
  }

  /** The integer `parse` reads in field `key` of every record. */
  ghost predicate NumbersAre(recs: seq<Record>, key: string, vals: seq<int>, parse: string -> Option<int>) {
    |recs| == |vals| && forall k :: 0 <= k < |recs| ==> key in recs[k] && parse(recs[k][key]) == Some(vals[k])
  }

  function GroupInfos(gs: seq<SpinGroup>): (r: seq<Record>)
    ensures |r| == |gs| && forall k :: 0 <= k < |gs| ==> r[k] == gs[k].info
  {
    seq(|gs|, k requires 0 <= k < |gs| => gs[k].info)
  }

  function Plus(vals: seq<int>, inc: int): (r: seq<int>)
    ensures |r| == |vals| && forall k :: 0 <= k < |vals| ==> r[k] == vals[k] + inc
  {
    seq(|vals|, k requires 0 <= k < |vals| => vals[k] + inc)
  }

  /** A bumped field reads back as the old value plus the increment, and
      nothing else in the record changes. */
  lemma BumpWithAdds(rec: Record, key: string, inc: int, v: int, parse: string -> Option<int>, render: int -> string)
    requires ReadsBack(parse, render) && key in rec && parse(rec[key]) == Some(v)
    ensures BumpWith(rec, key, inc, parse, render) == Some(rec[key := render(v + inc)])
    ensures parse(render(v + inc)) == Some(v + inc)
  {
  }

  /** Each record with its `key` field replaced by the rendering of `vals[j] + inc`. */
  function Bumped(recs: seq<Record>, key: string, inc: int, vals: seq<int>, render: int -> string): (r: seq<Record>)
    requires |vals| == |recs|
    ensures |r| == |recs| && forall j :: 0 <= j < |recs| ==> r[j] == recs[j][key := render(vals[j] + inc)]
  {
    seq(|recs|, j requires 0 <= j < |recs| => recs[j][key := render(vals[j] + inc)])
  }

  /** Every record bumped: each value reads back raised by `inc`, and the
      records keep their other fields. */
  lemma RecordsBumpAdds(recs: seq<Record>, key: string, inc: int, vals: seq<int>, parse: string -> Option<int>, render: int -> string)
    requires ReadsBack(parse, render) && NumbersAre(recs, key, vals, parse)
    ensures UpdateFrom(recs, 0, RecordBump(key, inc, parse, render)) == (Bumped(recs, key, inc, vals, render), true)
    ensures NumbersAre(Bumped(recs, key, inc, vals, render), key, Plus(vals, inc), parse)
  {
    var f := RecordBump(key, inc, parse, render);
    var bumped := Bumped(recs, key, inc, vals, render);
    forall j | 0 <= j < |recs|
      ensures f(recs[j]) == Some(bumped[j]) && parse(render(vals[j] + inc)) == Some(vals[j] + inc)
    {
      BumpWithAdds(recs[j], key, inc, vals[j], parse, render);
    }
    UpdateAllTo(recs, f, bumped);
  }

  /** `gs2` is `gs` with every group number raised by `inc` (read by
      `parse`) and the channels kept. */
  ghost predicate SpinBumped(gs: seq<SpinGroup>, gs2: seq<SpinGroup>, vals: seq<int>, inc: int, parse: string -> Option<int>) {
    |gs2| == |gs| && NumbersAre(GroupInfos(gs2), "group_number", Plus(vals, inc), parse)
    && forall k :: 0 <= k < |gs| ==> gs2[k].channels == gs[k].channels
  }

  /** Each group with its group number replaced by the rendering of `vals[j] + inc`. */
  ghost predicate Renumbered(gs: seq<SpinGroup>, gs2: seq<SpinGroup>, vals: seq<int>, inc: int, render: int -> string) {
    |gs2| == |gs| == |vals| && forall j :: 0 <= j < |gs| ==>
      gs2[j] == gs[j].(info := gs[j].info["group_number" := render(vals[j] + inc)])
  }

  lemma RenumberedBumped(gs: seq<SpinGroup>, gs2: seq<SpinGroup>, vals: seq<int>, inc: int, parse: string -> Option<int>, render: int -> string)
    requires ReadsBack(parse, render) && Renumbered(gs, gs2, vals, inc, render)
    ensures SpinBumped(gs, gs2, vals, inc, parse)
  {
    forall k | 0 <= k < |gs2| ensures "group_number" in GroupInfos(gs2)[k] && parse(GroupInfos(gs2)[k]["group_number"]) == Some(Plus(vals, inc)[k]) {
      assert GroupInfos(gs2)[k] == gs[k].info["group_number" := render(vals[k] + inc)];
    }
  }

  lemma SpinBumpAdds(gs: seq<SpinGroup>, inc: int, vals: seq<int>, parse: string -> Option<int>, render: int -> string)
    requires ReadsBack(parse, render) && NumbersAre(GroupInfos(gs), "group_number", vals, parse)
    ensures UpdateFrom(gs, 0, GroupBumpWith(inc, parse, render)).1
    ensures Renumbered(gs, UpdateFrom(gs, 0, GroupBumpWith(inc, parse, render)).0, vals, inc, render)
    ensures SpinBumped(gs, UpdateFrom(gs, 0, GroupBumpWith(inc, parse, render)).0, vals, inc, parse)
  {
    var f := GroupBumpWith(inc, parse, render);
    forall j | 0 <= j < |gs|
      ensures f(gs[j]) == Some(gs[j].(info := gs[j].info["group_number" := render(vals[j] + inc)]))
    {
      assert GroupInfos(gs)[j] == gs[j].info;
      BumpWithAdds(gs[j].info, "group_number", inc, vals[j], parse, render);
    }
    UpdateAll(gs, f);
    RenumberedBumped(gs, UpdateFrom(gs, 0, f).0, vals, inc, parse, render);
  }

  /** Bumping one group by `a` and then by `b` is bumping it by `a + b`. */
  lemma GroupBumpCompose(g: SpinGroup, a: int, b: int, v: int, parse: string -> Option<int>, render: int -> string)
    requires ReadsBack(parse, render) && "group_number" in g.info && parse(g.info["group_number"]) == Some(v)
    ensures GroupBumpWith(a, parse, render)(g).Some? && GroupBumpWith(a + b, parse, render)(g).Some?
    ensures GroupBumpWith(b, parse, render)(GroupBumpWith(a, parse, render)(g).value) == GroupBumpWith(a + b, parse, render)(g)
  {
    var i1 := g.info["group_number" := render(v + a)];
    var i2 := g.info["group_number" := render(v + (a + b))];
    BumpWithAdds(g.info, "group_number", a, v, parse, render);
    assert GroupBumpWith(a, parse, render)(g) == Some(g.(info := i1));
    BumpWithAdds(i1, "group_number", b, v + a, parse, render);
    assert i1["group_number" := render(v + a + b)] == i2 by { assert v + a + b == v + (a + b); }
    assert GroupBumpWith(b, parse, render)(g.(info := i1)) == Some(g.(info := i2));
    BumpWithAdds(g.info, "group_number", a + b, v, parse, render);
    assert GroupBumpWith(a + b, parse, render)(g) == Some(g.(info := i2));
  }

  lemma SpinBumpCompose(gs: seq<SpinGroup>, a: int, b: int, vals: seq<int>, parse: string -> Option<int>, render: int -> string)
    requires ReadsBack(parse, render) && NumbersAre(GroupInfos(gs), "group_number", vals, parse)
    ensures UpdateFrom(UpdateFrom(gs, 0, GroupBumpWith(a, parse, render)).0, 0, GroupBumpWith(b, parse, render)).0
      == UpdateFrom(gs, 0, GroupBumpWith(a + b, parse, render)).0
  {
    var f, g, h := GroupBumpWith(a, parse, render), GroupBumpWith(b, parse, render), GroupBumpWith(a + b, parse, render);
    forall j | 0 <= j < |gs| ensures f(gs[j]).Some? && h(gs[j]).Some? && g(f(gs[j]).value) == h(gs[j]) {
      assert GroupInfos(gs)[j] == gs[j].info;
      GroupBumpCompose(gs[j], a, b, vals[j], parse, render);
    }
    UpdateThen(gs, f, g, h);
  }

  lemma ShiftCompose(rs: seq<Radius>, a: int, b: int)
    ensures ShiftGroupIds(ShiftGroupIds(rs, a), b) == ShiftGroupIds(rs, a + b)
  {
    forall k | 0 <= k < |rs|
      ensures ShiftGroupIds(ShiftGroupIds(rs, a), b)[k] == ShiftGroupIds(rs, a + b)[k]
    {
      assert ShiftIds(ShiftIds(rs[k].groups, a), b) == ShiftIds(rs[k].groups, a + b);
    }
  }

  lemma RenumberGroupsSucceeds(d: Data, inc: int, vals: seq<int>, parse: string -> Option<int>, render: int -> string)
    requires ReadsBack(parse, render)
    requires d.spin.Some? && d.radii.Some? && NumbersAre(GroupInfos(d.spin.value), "group_number", vals, parse)
    ensures RenumberGroups(d, inc, parse, render)
      == (d.(spin := Some(UpdateFrom(d.spin.value, 0, GroupBumpWith(inc, parse, render)).0),
             radii := Some(ShiftGroupIds(d.radii.value, inc))), true)
  {
    SpinBumpAdds(d.spin.value, inc, vals, parse, render);
  }

  lemma RenumberGroupsCompose(d: Data, a: int, b: int, vals: seq<int>, parse: string -> Option<int>, render: int -> string)
    requires ReadsBack(parse, render)
    requires d.spin.Some? && d.radii.Some? && NumbersAre(GroupInfos(d.spin.value), "group_number", vals, parse)
    ensures RenumberGroups(d, a, parse, render).1
    ensures RenumberGroups(RenumberGroups(d, a, parse, render).0, b, parse, render) == RenumberGroups(d, a + b, parse, render)
  {
    var gs, rs := d.spin.value, d.radii.value;
    SpinBumpAdds(gs, a, vals, parse, render);
    RenumberGroupsSucceeds(d, a, vals, parse, render);
    var g1 := UpdateFrom(gs, 0, GroupBumpWith(a, parse, render)).0;
    var d1 := d.(spin := Some(g1), radii := Some(ShiftGroupIds(rs, a)));
    RenumberGroupsSucceeds(d1, b, Plus(vals, a), parse, render);
    RenumberGroupsSucceeds(d, a + b, vals, parse, render);
    SpinBumpCompose(gs, a, b, vals, parse, render);
    ShiftCompose(rs, a, b);
  }

  lemma RenumberGroupsAdds(d: Data, inc: int, vals: seq<int>, parse: string -> Option<int>, render: int -> string)
    requires ReadsBack(parse, render)
    requires d.spin.Some? && NumbersAre(GroupInfos(d.spin.value), "group_number", vals, parse)
    ensures RenumberGroups(d, inc, parse, render).1 <==> d.radii.Some?
    ensures RenumberGroups(d, inc, parse, render).0.spin.Some?
    ensures SpinBumped(d.spin.value, RenumberGroups(d, inc, parse, render).0.spin.value, vals, inc, parse)
    ensures d.radii.Some? ==> RenumberGroups(d, inc, parse, render).0.radii == Some(ShiftGroupIds(d.radii.value, inc))
    ensures RenumberGroups(d, inc, parse, render).0.(spin := d.spin, radii := d.radii) == d
  {
    SpinBumpAdds(d.spin.value, inc, vals, parse, render);
  }

  /** Bumping succeeds exactly when the channel radii are there, given that
      every group number is an integer; then every group number reads back
      raised by the increment, every channel-radii group id is raised by it,
      and the channels and the other sections are untouched. */
  lemma BumpGroupNumbersAdds(d: Data, inc: int, vals: seq<int>)
    requires d.spin.Some? && NumbersAre(GroupInfos(d.spin.value), "group_number", vals, ParseInt)
    ensures BumpGroupNumbers(d, inc).1 <==> d.radii.Some?
    ensures BumpGroupNumbers(d, inc).0.spin.Some?
    ensures SpinBumped(d.spin.value, BumpGroupNumbers(d, inc).0.spin.value, vals, inc, ParseInt)
    ensures d.radii.Some? ==> BumpGroupNumbers(d, inc).0.radii == Some(ShiftGroupIds(d.radii.value, inc))
    ensures BumpGroupNumbers(d, inc).0.(spin := d.spin, radii := d.radii) == d
  {
    NumeralReadsBack(3);
    RenumberGroupsAdds(d, inc, vals, ParseInt, NumeralIn(3));
  }

  /** A bump that fails leaves the groups before the first unreadable group
      number bumped and the rest as they were. */
  lemma BumpGroupNumbersPartial(d: Data, inc: int)
    requires d.spin.Some?
    ensures var gs := d.spin.value; var b := FirstRefused(gs, 0, GroupBump(inc));
      && BumpGroupNumbers(d, inc).0.spin.Some?
      && |BumpGroupNumbers(d, inc).0.spin.value| == |gs|
      && (b < |gs| ==> !BumpGroupNumbers(d, inc).1 && IntField(gs[b].info, "group_number").None?)
      && (forall j :: 0 <= j < b ==> Some(BumpGroupNumbers(d, inc).0.spin.value[j]) == GroupBump(inc)(gs[j]))
      && (forall j :: b <= j < |gs| ==> BumpGroupNumbers(d, inc).0.spin.value[j] == gs[j])
  {
    var gs := d.spin.value;
    var f := GroupBump(inc);
    UpdateFromSpec(gs, 0, f);
    var b := FirstRefused(gs, 0, f);
    if b < |gs| {
      assert f(gs[b]).None?;
    }
  }

  /** Bumping by `a` and then by `b` is bumping by `a + b`. */
  lemma BumpGroupNumbersCompose(d: Data, a: int, b: int, vals: seq<int>)
    requires d.spin.Some? && d.radii.Some? && NumbersAre(GroupInfos(d.spin.value), "group_number", vals, ParseInt)
    ensures BumpGroupNumbers(d, a).1
    ensures BumpGroupNumbers(BumpGroupNumbers(d, a).0, b) == BumpGroupNumbers(d, a + b)
  {
    NumeralReadsBack(3);
    RenumberGroupsCompose(d, a, b, vals, ParseInt, NumeralIn(3));
  }

  /** Bumping the resonances' `igroup` succeeds when every one is an
      integer, and each then reads back raised by the increment. */
  lemma BumpIgroupNumbersAdds(d: Data, inc: int, vals: seq<int>)
    requires d.resonances.Some? && NumbersAre(d.resonances.value, "igroup", vals, ParseInt)
    ensures BumpIgroupNumbers(d, inc).1
    ensures BumpIgroupNumbers(d, inc).0.resonances.Some?
    ensures NumbersAre(BumpIgroupNumbers(d, inc).0.resonances.value, "igroup", Plus(vals, inc), ParseInt)
    ensures BumpIgroupNumbers(d, inc).0.(resonances := d.resonances) == d
  {
    NumeralReadsBack(12);
    RecordsBumpAdds(d.resonances.value, "igroup", inc, vals, ParseInt, NumeralIn(12));
  }

  // ---- _rename ------------------------------------------------------------------

  /** A field's text, or "" where the record lacks the key. */
  function Get(rec: Record, key: string): string {
    if key in rec then rec[key] else ""
  }

  /** `(name, new_name)` as `_rename` computes them for the pair at index
      `num` of `count >= 1` pairs: the file's stem when the instance's name is
      "auto", that name otherwise, cut to 8 characters for a single pair and
      to 6 plus `_<num+1>` for several. */
  function NewNames(selfName: string, stem: string, count: nat, num: nat): (string, string) {
    if selfName == "auto" && count == 1 then (Slice(stem, 0, 8), Slice(stem, 0, 8))
    else if selfName == "auto" then (Slice(stem, 0, 6), Slice(stem, 0, 6) + "_" + IntToString(num + 1))
    else if count == 1 then (Slice(selfName, 0, 8), Slice(selfName, 0, 8))
    else (Slice(selfName, 0, 6), Slice(selfName, 0, 6) + "_" + IntToString(num + 1))
  }

  function NewName(selfName: string, stem: string, count: nat, num: nat): string {
    NewNames(selfName, stem, count, num).1
  }

  /** A channel whose name matches the old pair name takes the new one;
      `_rename` compares the names stripped (`norm` is `Strip`). */
  function RenameChannel(ch: Record, oldName: string, newName: string, norm: string -> string): Record {
    if "channel_name" in ch && norm(ch["channel_name"]) == norm(oldName) then ch["channel_name" := newName] else ch
  }

  function RenameInChannels(chs: seq<Record>, oldName: string, newName: string, norm: string -> string): (r: seq<Record>)
    ensures |r| == |chs| && forall j :: 0 <= j < |chs| ==> r[j] == RenameChannel(chs[j], oldName, newName, norm)
  {
    seq(|chs|, j requires 0 <= j < |chs| => RenameChannel(chs[j], oldName, newName, norm))
  }

  /** The inner loops of `_rename` for one pair: every channel of every group. */
  function RenameInGroups(gs: seq<SpinGroup>, oldName: string, newName: string, norm: string -> string): (r: seq<SpinGroup>)
    ensures |r| == |gs| && forall i :: 0 <= i < |gs| ==>
      r[i] == gs[i].(channels := RenameInChannels(gs[i].channels, oldName, newName, norm))
  {
    seq(|gs|, i requires 0 <= i < |gs| => gs[i].(channels := RenameInChannels(gs[i].channels, oldName, newName, norm)))
  }

  /** The outer loop of `_rename` from pair `k` on, as it changes the
      channels: pair `k`'s channels take `names[k]`, the new name computed on
      that iteration. */
  function ChannelsRenamedFrom(gs: seq<SpinGroup>, ps: seq<Record>, names: seq<string>, k: nat, norm: string -> string): seq<SpinGroup>
    requires |names| == |ps|
    decreases |ps| - k
  {
    if k >= |ps| then gs
    else ChannelsRenamedFrom(RenameInGroups(gs, Get(ps[k], "name"), names[k], norm), ps, names, k + 1, norm)
  }

  /** What the loop does to a single channel. */
  function ChannelRenamedFrom(ch: Record, ps: seq<Record>, names: seq<string>, k: nat, norm: string -> string): Record
    requires |names| == |ps|
    decreases |ps| - k
  {
    if k >= |ps| then ch
    else ChannelRenamedFrom(RenameChannel(ch, Get(ps[k], "name"), names[k], norm), ps, names, k + 1, norm)
  }

  function PairsNamed(ps: seq<Record>, names: seq<string>): (r: seq<Record>)
    requires |names| == |ps|
    ensures |r| == |ps| && forall k :: 0 <= k < |ps| ==> r[k] == ps[k]["name" := names[k]]
  {
    seq(|ps|, k requires 0 <= k < |ps| => ps[k]["name" := names[k]])
  }

  /** The new names the iterations compute, one per pair. */
  function IterationNames(selfName: string, stem: string, n: nat): (r: seq<string>)
    ensures |r| == n && forall k :: 0 <= k < n ==> r[k] == NewName(selfName, stem, n, k)
  {
    seq(n, k requires 0 <= k < n => NewName(selfName, stem, n, k))
  }

  /** The pair names after `_rename` as written: every pair takes the new
      name of the last iteration. */
  function LastNames(names: seq<string>): (r: seq<string>)
    requires names != []
    ensures |r| == |names| && forall k :: 0 <= k < |names| ==> r[k] == names[|names| - 1]
  {
    seq(|names|, k requires 0 <= k < |names| => names[|names| - 1])
  }

  /** `_rename`, given whether its last loop gives every pair the last new
      name: the renamed data and the new `self.name`; `None` where it
      raises (no pairs or no spin groups). */
  function RenamedWith(d: Data, selfName: string, stem: string, lastLoop: bool): Option<(Data, string)> {
    if d.pairs.None? || d.pairs.value == [] || d.spin.None? then None
    else
      var ps := d.pairs.value;
      var names := IterationNames(selfName, stem, |ps|);
      var gs := ChannelsRenamedFrom(d.spin.value, ps, names, 0, Strip);
      var pairNames := if lastLoop then LastNames(names) else names;
      Some((d.(pairs := Some(PairsNamed(ps, pairNames)), spin := Some(gs)), NewNames(selfName, stem, |ps|, |ps| - 1).0))
  }

  /** `_rename` with its last loop corrected: pair `k` takes the new name
      that its channels took. */
  function Renamed(d: Data, selfName: string, stem: string): Option<(Data, string)> {
    RenamedWith(d, selfName, stem, false)
  }

  /** `_rename` as written. */
  function RenamedAsWritten(d: Data, selfName: string, stem: string): Option<(Data, string)> {
    RenamedWith(d, selfName, stem, true)
  }

  /** The normalised old pair names are distinct, and no new name
      normalises to an old name of a later pair, so no channel is renamed twice. */
  ghost predicate RenameSafe(ps: seq<Record>, names: seq<string>, norm: string -> string) {
    |names| == |ps| &&
    forall j, k :: 0 <= j < k < |ps| ==>
      norm(Get(ps[j], "name")) != norm(Get(ps[k], "name")) && norm(names[j]) != norm(Get(ps[k], "name"))
  }

  lemma {:induction false} ChannelsRenamedAt(gs: seq<SpinGroup>, ps: seq<Record>, names: seq<string>, k: nat, norm: string -> string, g: nat, c: nat)
    requires |names| == |ps| && g < |gs| && c < |gs[g].channels|
    ensures var r := ChannelsRenamedFrom(gs, ps, names, k, norm);
      |r| == |gs| && r[g].info == gs[g].info && |r[g].channels| == |gs[g].channels|
      && r[g].channels[c] == ChannelRenamedFrom(gs[g].channels[c], ps, names, k, norm)
    decreases |ps| - k
  {
    if k < |ps| {
      ChannelsRenamedAt(RenameInGroups(gs, Get(ps[k], "name"), names[k], norm), ps, names, k + 1, norm, g, c);
    }
  }

  lemma {:induction false} ChannelsRenamedSize(gs: seq<SpinGroup>, ps: seq<Record>, names: seq<string>, k: nat, norm: string -> string)
    requires |names| == |ps|
    ensures var r := ChannelsRenamedFrom(gs, ps, names, k, norm);
      |r| == |gs| && forall g :: 0 <= g < |gs| ==> r[g].info == gs[g].info && |r[g].channels| == |gs[g].channels|
    decreases |ps| - k
  {
    if k < |ps| {
      ChannelsRenamedSize(RenameInGroups(gs, Get(ps[k], "name"), names[k], norm), ps, names, k + 1, norm);
    }
  }

  /** A channel that names none of the pairs from `k` on is left alone. */
  lemma {:induction false} ChannelUntouched(ch: Record, ps: seq<Record>, names: seq<string>, k: nat, norm: string -> string)
    requires |names| == |ps| && "channel_name" in ch
    requires forall j :: k <= j < |ps| ==> norm(ch["channel_name"]) != norm(Get(ps[j], "name"))
    ensures ChannelRenamedFrom(ch, ps, names, k, norm) == ch
    decreases |ps| - k
  {
    if k < |ps| {
      ChannelUntouched(ch, ps, names, k + 1, norm);
    }
  }

  /** A channel that names pair `p` ends up with `names[p]`. */
  lemma {:induction false} ChannelFollowsPair(ch: Record, ps: seq<Record>, names: seq<string>, k: nat, p: nat, norm: string -> string)
    requires RenameSafe(ps, names, norm) && k <= p < |ps|
    requires "channel_name" in ch && norm(ch["channel_name"]) == norm(Get(ps[p], "name"))
    ensures ChannelRenamedFrom(ch, ps, names, k, norm) == ch["channel_name" := names[p]]
    decreases |ps| - k
  {
    if k < p {
      assert norm(Get(ps[k], "name")) != norm(Get(ps[p], "name"));
      ChannelFollowsPair(ch, ps, names, k + 1, p, norm);
    } else {
      var ch1 := ch["channel_name" := names[p]];
      forall j | p + 1 <= j < |ps| ensures norm(ch1["channel_name"]) != norm(Get(ps[j], "name")) {
        assert ch1["channel_name"] == names[p];
      }
      ChannelUntouched(ch1, ps, names, p + 1, norm);
    }
  }

  /** After the corrected `_rename`, a channel that named pair `p` names the
      renamed pair `p`, and a channel that named no pair keeps its name
      (names compared stripped). */
  lemma RenameKeepsReferences(d: Data, selfName: string, stem: string, g: nat, c: nat)
    requires Renamed(d, selfName, stem).Some?
    requires RenameSafe(d.pairs.value, IterationNames(selfName, stem, |d.pairs.value|), Strip)
    requires g < |d.spin.value| && c < |d.spin.value[g].channels| && "channel_name" in d.spin.value[g].channels[c]
    ensures var ps := d.pairs.value; var ch := d.spin.value[g].channels[c];
      var r := Renamed(d, selfName, stem).value.0;
      && g < |r.spin.value| && c < |r.spin.value[g].channels|
      && (forall p :: 0 <= p < |ps| && Strip(ch["channel_name"]) == Strip(Get(ps[p], "name")) ==>
            r.spin.value[g].channels[c] == ch["channel_name" := r.pairs.value[p]["name"]])
      && ((forall p :: 0 <= p < |ps| ==> Strip(ch["channel_name"]) != Strip(Get(ps[p], "name"))) ==>
            r.spin.value[g].channels[c] == ch)
  {
    var ps := d.pairs.value;
    var names := IterationNames(selfName, stem, |ps|);
    var ch := d.spin.value[g].channels[c];
    ChannelsRenamedAt(d.spin.value, ps, names, 0, Strip, g, c);
    forall p | 0 <= p < |ps| && Strip(ch["channel_name"]) == Strip(Get(ps[p], "name"))
      ensures ChannelRenamedFrom(ch, ps, names, 0, Strip) == ch["channel_name" := names[p]]
    {
      ChannelFollowsPair(ch, ps, names, 0, p, Strip);
    }
    if forall p :: 0 <= p < |ps| ==> Strip(ch["channel_name"]) != Strip(Get(ps[p], "name")) {
      ChannelUntouched(ch, ps, names, 0, Strip);
    }
  }

  /** Renaming touches only the pair names and the channel names, and fails
      exactly when there are no pairs or no spin groups. */
  lemma RenamedShape(d: Data, selfName: string, stem: string)
    ensures Renamed(d, selfName, stem).Some? <==> d.pairs.Some? && d.pairs.value != [] && d.spin.Some?
    ensures Renamed(d, selfName, stem).Some? ==>
      var r := Renamed(d, selfName, stem).value.0;
      && r.radii == d.radii && r.resonances == d.resonances && r.isotopes == d.isotopes
      && |r.pairs.value| == |d.pairs.value|
      && (forall k :: 0 <= k < |d.pairs.value| ==>
            r.pairs.value[k] == d.pairs.value[k]["name" := NewName(selfName, stem, |d.pairs.value|, k)])
      && |r.spin.value| == |d.spin.value|
      && (forall g :: 0 <= g < |d.spin.value| ==>
            r.spin.value[g].info == d.spin.value[g].info && |r.spin.value[g].channels| == |d.spin.value[g].channels|)
  {
    if Renamed(d, selfName, stem).Some? {
      ChannelsRenamedSize(d.spin.value, d.pairs.value, IterationNames(selfName, stem, |d.pairs.value|), 0, Strip);
    }
  }

  /** As written, `_rename` breaks the link between a channel and its pair:
      with pairs "A" and "B", each named by one channel, and the name "X",
      the first channel becomes "X_1" while both pairs become "X_2". */
  lemma RenameAsWrittenDangles()
    ensures RenamedAsWritten(Data(Some(ExamplePairs()), Some([SpinGroup(map[], ExampleChannels())]), None, None, None), "X", "stem")
      == Some((Data(Some([map["name" := "X_2"], map["name" := "X_2"]]),
                    Some([SpinGroup(map[], [map["channel_name" := "X_1"], map["channel_name" := "X_2"]])]),
                    None, None, None), "X"))
  {
    ExampleNames();
    ExampleChannelsRenamed();
    ExamplePairsNamed();
    assert Slice("X", 0, 6) == "X";
  }

  function ExamplePairs(): seq<Record> {
    [map["name" := "A"], map["name" := "B"]]
  }

  function ExampleChannels(): seq<Record> {
    [map["channel_name" := "A"], map["channel_name" := "B"]]
  }

  lemma ExampleNames()
    ensures IterationNames("X", "stem", 2) == ["X_1", "X_2"]
  {
    assert IntToString(1) == "1" by { assert DigitChar(1) == '1'; }
    assert IntToString(2) == "2" by { assert DigitChar(2) == '2'; }
    assert Slice("X", 0, 6) == "X";
    assert "X" + "_" + "1" == "X_1" && "X" + "_" + "2" == "X_2";
  }

  lemma ExamplePairsNamed()
    ensures PairsNamed(ExamplePairs(), LastNames(["X_1", "X_2"])) == [map["name" := "X_2"], map["name" := "X_2"]]
  {
    var r := PairsNamed(ExamplePairs(), LastNames(["X_1", "X_2"]));
    assert r[0] == map["name" := "A"]["name" := "X_2"];
    assert r[1] == map["name" := "B"]["name" := "X_2"];
    assert map["name" := "A"]["name" := "X_2"] == map["name" := "X_2"];
    assert map["name" := "B"]["name" := "X_2"] == map["name" := "X_2"];
  }

  lemma ExampleChannelsRenamed()
    ensures ChannelsRenamedFrom([SpinGroup(map[], ExampleChannels())], ExamplePairs(), ["X_1", "X_2"], 0, Strip)
      == [SpinGroup(map[], [map["channel_name" := "X_1"], map["channel_name" := "X_2"]])]
  {
    var a, b, x1, x2 := map["channel_name" := "A"], map["channel_name" := "B"], map["channel_name" := "X_1"], map["channel_name" := "X_2"];
    ExampleFirstRename();
    ExampleSecondRename();
    assert Get(ExamplePairs()[0], "name") == "A";
    assert Get(ExamplePairs()[1], "name") == "B";
    assert RenameInGroups([SpinGroup(map[], [a, b])], "A", "X_1", Strip) == [SpinGroup(map[], [x1, b])];
    assert RenameInGroups([SpinGroup(map[], [x1, b])], "B", "X_2", Strip) == [SpinGroup(map[], [x1, x2])];
  }

  /** Two channels, the first naming the renamed pair and the second not. */
  lemma RenameFirstOfTwo(u: string, v: string, oldName: string, newName: string, norm: string -> string)
    requires norm(u) == norm(oldName) && norm(v) != norm(oldName)
    ensures RenameInChannels([map["channel_name" := u], map["channel_name" := v]], oldName, newName, norm)
      == [map["channel_name" := newName], map["channel_name" := v]]
  {
    assert map["channel_name" := u]["channel_name" := newName] == map["channel_name" := newName];
  }

  /** Two channels, the second naming the renamed pair and the first not. */
  lemma RenameSecondOfTwo(u: string, v: string, oldName: string, newName: string, norm: string -> string)
    requires norm(u) != norm(oldName) && norm(v) == norm(oldName)
    ensures RenameInChannels([map["channel_name" := u], map["channel_name" := v]], oldName, newName, norm)
      == [map["channel_name" := u], map["channel_name" := newName]]
  {
    assert map["channel_name" := v]["channel_name" := newName] == map["channel_name" := newName];
  }

  lemma StripDiffers(s: string, t: string)
    requires s != [] && t != [] && s[0] != t[0]
    requires !IsSpace(s[0]) && !IsSpace(s[|s| - 1]) && !IsSpace(t[0]) && !IsSpace(t[|t| - 1])
    ensures Strip(s) != Strip(t)
  {
    StripOfNoSpaceEnds(s);
    StripOfNoSpaceEnds(t);
  }

  lemma ExampleFirstRename()
    ensures RenameInChannels([map["channel_name" := "A"], map["channel_name" := "B"]], "A", "X_1", Strip)
      == [map["channel_name" := "X_1"], map["channel_name" := "B"]]
  {
    StripDiffers("B", "A");
    RenameFirstOfTwo("A", "B", "A", "X_1", Strip);
  }

  lemma ExampleSecondRename()
    ensures RenameInChannels([map["channel_name" := "X_1"], map["channel_name" := "B"]], "B", "X_2", Strip)
      == [map["channel_name" := "X_1"], map["channel_name" := "X_2"]]
  {
    StripDiffers("X_1", "B");
    RenameSecondOfTwo("X_1", "B", "B", "X_2", Strip);
  }
}
