/** The two updates that stamp an isotope's weight into its parameter data:
    the abundance column of every spin group, and the isotopic-mass cards
    (an existing card list is restamped; an empty one gets a new card that
    lists every spin group). */
module ParWeight {
  import opened Text
  import opened ParFormat
  import opened ParData

  /** `self.weight` as the two texts the updates write: `f"{w:.7f}"` and
      `f"{w*0.1:.7f}"`. Rendering a float is outside the model. */
  datatype Weight = Weight(fixed7: string, tenthFixed7: string)

  // ---- _update_isotopic_weight ------------------------------------------------

  function WithAbundance(gs: seq<SpinGroup>, text: string): seq<SpinGroup> {
    seq(|gs|, j requires 0 <= j < |gs| => gs[j].(info := gs[j].info["isotopic_abundance" := text]))
  }

  /** `_update_isotopic_weight`; `None` where the loop raises because the
      spin groups were never read. */
  function Reweighted(d: Data, w: Weight): Option<Data> {
    if d.spin.None? then None
    else Some(d.(spin := Some(WithAbundance(d.spin.value, RJust(w.fixed7, 10)))))
  }

  /** Every group carries the weight, right-justified in ten columns, in its
      abundance field; nothing else changes. */
  lemma ReweightedSpec(d: Data, w: Weight)
    ensures Reweighted(d, w).Some? <==> d.spin.Some?
    ensures Reweighted(d, w).Some? ==>
      var r := Reweighted(d, w).value;
      && r.(spin := d.spin) == d && |r.spin.value| == |d.spin.value|
      && forall j :: 0 <= j < |d.spin.value| ==>
           && r.spin.value[j].channels == d.spin.value[j].channels
           && "isotopic_abundance" in r.spin.value[j].info
           && r.spin.value[j].info["isotopic_abundance"] == RJust(w.fixed7, 10)
           && (forall k :: k in d.spin.value[j].info && k != "isotopic_abundance" ==>
                 k in r.spin.value[j].info && r.spin.value[j].info[k] == d.spin.value[j].info[k])
  {
  }

  /** A second update with the same weight changes nothing. */
  lemma ReweightedIdempotent(d: Data, w: Weight)
    requires d.spin.Some?
    ensures Reweighted(Reweighted(d, w).value, w) == Reweighted(d, w)
  {
    AbundanceIdempotent(d.spin.value, RJust(w.fixed7, 10));
  }

  lemma AbundanceIdempotent(gs: seq<SpinGroup>, t: string)
    ensures WithAbundance(WithAbundance(gs, t), t) == WithAbundance(gs, t)
  {
    var g1 := WithAbundance(gs, t);
    forall j | 0 <= j < |gs| ensures WithAbundance(g1, t)[j] == g1[j] {
      assert g1[j].info["isotopic_abundance" := t] == g1[j].info;
    }
  }

  /** The update keeps every stored record's fields. */
  lemma ReweightedKeyed(d: Data, w: Weight)
    requires WellKeyed(d) && d.spin.Some?
    ensures WellKeyed(Reweighted(d, w).value)
  {
    var gs := d.spin.value;
    var g1 := WithAbundance(gs, RJust(w.fixed7, 10));
    forall j | 0 <= j < |g1| ensures GroupKeyed(g1[j]) {
      assert GroupKeyed(gs[j]);
    }
  }

  // ---- the group list of a new isotopic-mass card ------------------------------

  /** `f"{group_number.strip():>2}"` for every group, joined; `None` where a
      group has no number. */
  function GroupNumbersText(gs: seq<SpinGroup>): Option<string> {
    SlotsText(gs, NumberSlot)
  }

  function NumberSlot(n: string): string {
    RJust(Strip(n), 2)
  }

  /** The group numbers, each rendered by `slot`, joined. */
  function SlotsText(gs: seq<SpinGroup>, slot: string -> string): Option<string> {
    if gs == [] then Some("")
    else if "group_number" !in gs[0].info then None
    else
      match SlotsText(gs[1..], slot)
      case None => None
      case Some(rest) => Some(slot(gs[0].info["group_number"]) + rest)
  }

  /** Text made of two-column slots in order. */
  predicate InSlots(s: string, slots: seq<string>)
  {
    |s| == 2 * |slots| && forall k :: 0 <= k < |slots| ==> s[2 * k..2 * k + 2] == slots[k]
  }

  function Slots(gs: seq<SpinGroup>, slot: string -> string): (r: seq<string>)
    requires forall k :: 0 <= k < |gs| ==> "group_number" in gs[k].info
    ensures |r| == |gs|
  {
    seq(|gs|, k requires 0 <= k < |gs| => slot(gs[k].info["group_number"]))
  }

  /** Group numbers of at most two characters each take exactly two columns,
      in the order of the groups. */
  lemma GroupNumbersInSlots(gs: seq<SpinGroup>)
    requires forall k :: 0 <= k < |gs| ==> "group_number" in gs[k].info && |Strip(gs[k].info["group_number"])| <= 2
    ensures GroupNumbersText(gs).Some?
    ensures InSlots(GroupNumbersText(gs).value, Slots(gs, NumberSlot))
  {
    forall k | 0 <= k < |gs| ensures |NumberSlot(gs[k].info["group_number"])| == 2 {
    }
    SlotsInOrder(gs, NumberSlot);
  }

  lemma {:induction false} SlotsInOrder(gs: seq<SpinGroup>, slot: string -> string)
    requires forall k :: 0 <= k < |gs| ==> "group_number" in gs[k].info && |slot(gs[k].info["group_number"])| == 2
    ensures SlotsText(gs, slot).Some?
    ensures InSlots(SlotsText(gs, slot).value, Slots(gs, slot))
  {
    if gs != [] {
      SlotsInOrder(gs[1..], slot);
      var slots := Slots(gs, slot);
      var rest := SlotsText(gs[1..], slot).value;
      var head := slot(gs[0].info["group_number"]);
      var s := head + rest;
      assert SlotsText(gs, slot) == Some(s);
      forall k | 0 <= k < |slots| ensures s[2 * k..2 * k + 2] == slots[k] {
        if k == 0 {
          assert s[0..2] == head;
        } else {
          assert s[2 * k..2 * k + 2] == rest[2 * (k - 1)..2 * (k - 1) + 2];
          assert slots[k] == Slots(gs[1..], slot)[k - 1];
        }
      }
    }
  }

  /** A group without a number makes the list raise. */
  lemma GroupNumbersMissing(gs: seq<SpinGroup>, k: nat)
    requires k < |gs| && "group_number" !in gs[k].info
    ensures GroupNumbersText(gs).None?
  {
    SlotMissing(gs, k, NumberSlot);
  }

  lemma {:induction false} SlotMissing(gs: seq<SpinGroup>, k: nat, slot: string -> string)
    requires k < |gs| && "group_number" !in gs[k].info
    ensures SlotsText(gs, slot).None?
  {
    if k > 0 {
      SlotMissing(gs[1..], k - 1, slot);
    }
  }

  /** What `"-1\n" + " "*32` puts between the 46-column pieces: the
      continuation mark and the indentation of the next card's group field. */
  function Continuation(): string {
    "-1\n" + Spaces(32)
  }

  function Piece(s: string, l: nat): string {
    Slice(s, 46 * l, 46 * (l + 1))
  }

  /** The loop `for l in range(l, last): out += continuation + piece l`, as
      the text it appends. */
  function PiecesBetween(s: string, l: nat, last: nat): string
    decreases last - l
  {
    if l >= last then "" else Continuation() + Piece(s, l) + PiecesBetween(s, l + 1, last)
  }

  /** The group field as written: `L = len(s)//46` pieces, so a last piece
      shorter than 46 columns is dropped. */
  function GroupListAsWritten(s: string): string {
    Slice(s, 0, 46) + PiecesBetween(s, 1, |s| / 46)
  }

  /** The group field with every piece, the last one included. */
  function GroupList(s: string): string {
    Slice(s, 0, 46) + PiecesBetween(s, 1, (|s| + 45) / 46)
  }

  /** The reference cut: `s` in pieces of 46 columns, the last possibly shorter. */
  function Chunks(s: string): (r: seq<string>)
    decreases |s|
  {
    if |s| <= 46 then [s] else [s[..46]] + Chunks(s[46..])
  }

  /** The pieces cover `s` in order, each at most 46 columns and all but
      the last exactly 46. */
  lemma {:induction false} ChunksCover(s: string)
    ensures Concat(Chunks(s)) == s
    ensures forall k :: 0 <= k < |Chunks(s)| ==> |Chunks(s)[k]| <= 46
    ensures forall k :: 0 <= k < |Chunks(s)| - 1 ==> |Chunks(s)[k]| == 46
    decreases |s|
  {
    if |s| > 46 {
      ChunksCover(s[46..]);
      var c := Chunks(s);
      assert c == [s[..46]] + Chunks(s[46..]);
      assert Concat(c) == s[..46] + Concat(Chunks(s[46..]));
      assert s[..46] + s[46..] == s;
      forall k | 0 <= k < |c| ensures |c[k]| <= 46 && (k < |c| - 1 ==> |c[k]| == 46) {
        if k > 0 {
          assert c[k] == Chunks(s[46..])[k - 1];
        }
      }
    }
  }

  lemma {:induction false} PiecesFrom(s: string, l: nat)
    requires 46 * l < |s|
    ensures PiecesBetween(s, l, (|s| + 45) / 46) == Continuation() + Join(Continuation(), Chunks(s[46 * l..]))
    decreases |s| - 46 * l
  {
    var last := (|s| + 45) / 46;
    var t := s[46 * l..];
    assert l < last;
    if |t| <= 46 {
      assert l + 1 >= last;
      assert Piece(s, l) == t;
      assert PiecesBetween(s, l + 1, last) == "";
    } else {
      PiecesFrom(s, l + 1);
      assert Piece(s, l) == t[..46];
      assert t[46..] == s[46 * (l + 1)..];
      var rest := Chunks(t[46..]);
      assert Chunks(t) == [t[..46]] + rest;
      assert Join(Continuation(), [t[..46]] + rest) == t[..46] + Continuation() + Join(Continuation(), rest) by {
        assert ([t[..46]] + rest)[1..] == rest;
      }
    }
  }

  /** The corrected field is the 46-column pieces joined by the continuation. */
  lemma GroupListIsJoin(s: string)
    ensures GroupList(s) == Join(Continuation(), Chunks(s))
  {
    if |s| <= 46 {
      assert (|s| + 45) / 46 <= 1;
    } else {
      PiecesFrom(s, 1);
      var rest := Chunks(s[46..]);
      assert Join(Continuation(), [s[..46]] + rest) == s[..46] + Continuation() + Join(Continuation(), rest) by {
        assert ([s[..46]] + rest)[1..] == rest;
      }
    }
  }

  /** Both versions agree when the pieces come out even. */
  lemma GroupListEven(s: string)
    requires |s| % 46 == 0
    ensures GroupListAsWritten(s) == GroupList(s)
  {
    assert (|s| + 45) / 46 == |s| / 46;
  }

  /** As written, a list of 47 to 91 columns (24 to 45 two-column group
      numbers) keeps only its first 46 columns. */
  lemma GroupListAsWrittenDrops(s: string)
    requires 46 < |s| < 92
    ensures GroupListAsWritten(s) == s[..46]
    ensures GroupList(s) == s[..46] + Continuation() + s[46..]
  {
    assert |s| / 46 == 1;
    assert (|s| + 45) / 46 == 2;
    assert Piece(s, 1) == s[46..];
  }

  // ---- _update_isotopic_masses_abundance -----------------------------------------

  function IsotopeCard(mass: string, w: Weight, groups: string): Record {
    map["atomic_mass" := mass, "abundance" := LJust(w.fixed7, 10), "abundance_uncertainty" := LJust(w.tenthFixed7, 10),
        "vary_abundance" := "1", "spin_groups" := groups]
  }

  function WithCardAbundance(cards: seq<Record>, text: string): seq<Record> {
    seq(|cards|, j requires 0 <= j < |cards| => cards[j]["abundance" := text])
  }

  /** `_update_isotopic_masses_abundance`, with the group field laid out by
      `layout`; `None` where it raises: no isotopic-mass list read, or an
      empty one with no spin groups, a group without a number, or no first
      particle pair with a `mass_b`. */
  function UpdatedIsotopesWith(d: Data, w: Weight, layout: string -> string): Option<Data> {
    if d.isotopes.None? then None
    else if d.isotopes.value != [] then
      Some(d.(isotopes := Some(WithCardAbundance(d.isotopes.value, RJust(w.fixed7, 10)))))
    else if d.spin.None? then None
    else
      match GroupNumbersText(d.spin.value)
      case None => None
      case Some(text) =>
        if d.pairs.None? || d.pairs.value == [] || "mass_b" !in d.pairs.value[0] then None
        else Some(d.(isotopes := Some([IsotopeCard(d.pairs.value[0]["mass_b"], w, layout(text))])))
  }

  function UpdatedIsotopes(d: Data, w: Weight): Option<Data> {
    UpdatedIsotopesWith(d, w, GroupList)
  }

  function UpdatedIsotopesAsWritten(d: Data, w: Weight): Option<Data> {
    UpdatedIsotopesWith(d, w, GroupListAsWritten)
  }

  /** When the data already has cards, each is restamped and nothing else changes. */
  lemma RestampedCards(d: Data, w: Weight, layout: string -> string)
    requires d.isotopes.Some? && d.isotopes.value != []
    ensures UpdatedIsotopesWith(d, w, layout).Some?
    ensures var r := UpdatedIsotopesWith(d, w, layout).value;
      && r.(isotopes := d.isotopes) == d && |r.isotopes.value| == |d.isotopes.value|
      && forall j :: 0 <= j < |d.isotopes.value| ==>
           r.isotopes.value[j] == d.isotopes.value[j]["abundance" := RJust(w.fixed7, 10)]
  {
  }

  /** With no cards yet, the update succeeds exactly when the groups are
      numbered and a first pair has a `mass_b`; the one new card holds that
      mass, the weight, a fixed vary flag and the group list, whose 46-column
      pieces put together give back every group number. */
  lemma NewIsotopeCard(d: Data, w: Weight)
    requires d.isotopes == Some([])
    ensures UpdatedIsotopes(d, w).Some? <==>
      d.spin.Some? && GroupNumbersText(d.spin.value).Some?
      && d.pairs.Some? && d.pairs.value != [] && "mass_b" in d.pairs.value[0]
    ensures UpdatedIsotopes(d, w).Some? ==>
      var r := UpdatedIsotopes(d, w).value;
      var text := GroupNumbersText(d.spin.value).value;
      && r.(isotopes := d.isotopes) == d
      && r.isotopes == Some([IsotopeCard(d.pairs.value[0]["mass_b"], w, GroupList(text))])
      && GroupList(text) == Join(Continuation(), Chunks(text))
      && Concat(Chunks(text)) == text
  {
    if d.spin.Some? && GroupNumbersText(d.spin.value).Some? {
      var text := GroupNumbersText(d.spin.value).value;
      GroupListIsJoin(text);
      ChunksCover(text);
    }
  }

  /** Once there are cards, a second update changes nothing more. */
  lemma UpdatedIsotopesStable(d: Data, w: Weight)
    requires d.isotopes.Some? && d.isotopes.value != []
    ensures UpdatedIsotopes(UpdatedIsotopes(d, w).value, w) == UpdatedIsotopes(d, w)
  {
    var t := RJust(w.fixed7, 10);
    var c1 := WithCardAbundance(d.isotopes.value, t);
    forall j | 0 <= j < |c1| ensures WithCardAbundance(c1, t)[j] == c1[j] {
      assert c1[j]["abundance" := t] == c1[j];
    }
    assert WithCardAbundance(c1, t) == c1;
  }

  /** The update keeps every stored record's fields, the new card included. */
  lemma UpdatedIsotopesKeyed(d: Data, w: Weight, layout: string -> string)
    requires WellKeyed(d) && UpdatedIsotopesWith(d, w, layout).Some?
    ensures WellKeyed(UpdatedIsotopesWith(d, w, layout).value)
  {
    var r := UpdatedIsotopesWith(d, w, layout).value;
    if d.isotopes.value != [] {
      var cs := r.isotopes.value;
      forall j | 0 <= j < |cs| ensures HasFields(IsotopicMassFormat, cs[j]) {
        assert HasFields(IsotopicMassFormat, d.isotopes.value[j]);
      }
    } else {
      IsotopeCardKeyed(d.pairs.value[0]["mass_b"], w, layout(GroupNumbersText(d.spin.value).value));
    }
  }

  lemma IsotopeCardKeyed(mass: string, w: Weight, groups: string)
    ensures HasFields(IsotopicMassFormat, IsotopeCard(mass, w, groups))
  {
    var card := IsotopeCard(mass, w, groups);
    assert "atomic_mass" in card && "abundance" in card && "abundance_uncertainty" in card;
    assert "vary_abundance" in card && "spin_groups" in card;
  }
}
