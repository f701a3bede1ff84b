/** Every edit of `ParFile` keeps each stored record keyed with the fields
    of its registry, the invariant the writers rely on. */
module ParKeys {
  import opened Text
  import opened ParFormat
  import opened ParData
  import opened ParEdit

  /** An update loop keeps a property that every successful update keeps. */
  lemma UpdateKeeps<T>(xs: seq<T>, f: T -> Option<T>, P: T -> bool)
    requires forall j :: 0 <= j < |xs| ==> P(xs[j])
    requires forall j :: 0 <= j < |xs| && f(xs[j]).Some? ==> P(f(xs[j]).value)
    ensures forall j :: 0 <= j < |xs| ==> P(UpdateFrom(xs, 0, f).0[j])
  {
    UpdateFromSpec(xs, 0, f);
  }

  lemma BumpGroupNumbersKeyed(d: Data, inc: int)
    requires WellKeyed(d)
    ensures WellKeyed(BumpGroupNumbers(d, inc).0)
  {
    RenumberGroupsKeyed(d, inc, ParseInt, NumeralIn(3));
  }

  lemma RenumberGroupsKeyed(d: Data, inc: int, parse: string -> Option<int>, render: int -> string)
    requires WellKeyed(d)
    ensures WellKeyed(RenumberGroups(d, inc, parse, render).0)
  {
    if d.spin.Some? {
      var gs := d.spin.value;
      var f := GroupBumpWith(inc, parse, render);
      forall j | 0 <= j < |gs| && f(gs[j]).Some? ensures GroupKeyed(f(gs[j]).value) {
        assert GroupKeyed(gs[j]);
      }
      UpdateKeeps(gs, f, GroupKeyed);
    }
  }

  lemma BumpIgroupNumbersKeyed(d: Data, inc: int)
    requires WellKeyed(d)
    ensures WellKeyed(BumpIgroupNumbers(d, inc).0)
  {
    RenumberResonancesKeyed(d, inc, ParseInt, NumeralIn(12));
  }

  lemma RenumberResonancesKeyed(d: Data, inc: int, parse: string -> Option<int>, render: int -> string)
    requires WellKeyed(d)
    ensures WellKeyed(RenumberResonances(d, inc, parse, render).0)
  {
    if d.resonances.Some? {
      var rs := d.resonances.value;
      var f := RecordBump("igroup", inc, parse, render);
      var P := (r: Record) => HasFields(ResonanceFormat, r);
      forall j | 0 <= j < |rs| ensures P(rs[j]) {
        assert HasFields(ResonanceFormat, rs[j]);
      }
      UpdateKeeps(rs, f, P);
      assert forall j :: 0 <= j < |rs| ==> P(UpdateFrom(rs, 0, f).0[j]);
    }
  }

  lemma RenameInGroupsKeyed(gs: seq<SpinGroup>, oldName: string, newName: string, norm: string -> string)
    requires GroupsKeyed(gs)
    ensures GroupsKeyed(RenameInGroups(gs, oldName, newName, norm))
  {
    var r := RenameInGroups(gs, oldName, newName, norm);
    forall i | 0 <= i < |gs| ensures GroupKeyed(r[i]) {
      assert GroupKeyed(gs[i]);
      var chs := RenameInChannels(gs[i].channels, oldName, newName, norm);
      forall j | 0 <= j < |chs| ensures HasFields(SpinChannelFormat, chs[j]) {
        assert HasFields(SpinChannelFormat, gs[i].channels[j]);
      }
    }
  }

  lemma {:induction false} ChannelsRenamedKeyed(gs: seq<SpinGroup>, ps: seq<Record>, names: seq<string>, k: nat, norm: string -> string)
    requires |names| == |ps| && GroupsKeyed(gs)
    ensures GroupsKeyed(ChannelsRenamedFrom(gs, ps, names, k, norm))
    decreases |ps| - k
  {
    if k < |ps| {
      RenameInGroupsKeyed(gs, Get(ps[k], "name"), names[k], norm);
      ChannelsRenamedKeyed(RenameInGroups(gs, Get(ps[k], "name"), names[k], norm), ps, names, k + 1, norm);
    }
  }

  lemma RenamedKeyed(d: Data, selfName: string, stem: string, lastLoop: bool)
    requires WellKeyed(d) && RenamedWith(d, selfName, stem, lastLoop).Some?
    ensures WellKeyed(RenamedWith(d, selfName, stem, lastLoop).value.0)
  {
    var ps := d.pairs.value;
    var names := IterationNames(selfName, stem, |ps|);
    ChannelsRenamedKeyed(d.spin.value, ps, names, 0, Strip);
    var ps2 := PairsNamed(ps, if lastLoop then LastNames(names) else names);
    forall k | 0 <= k < |ps2| ensures HasFields(ParticlePairFormat, ps2[k]) {
      assert HasFields(ParticlePairFormat, ps[k]);
    }
  }
}
