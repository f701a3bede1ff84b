/** Reading back what `ParFile.write` writes: the physical lines of the
    written text, the cards the line scanner collects from them, and the
    data the section parsers rebuild, which writes the same text again. */
module ParRoundTrip {
  import opened Text
  import opened ParFormat
  import opened ChannelRadii
  import opened ParScan
  import opened ParData

  // ---- the physical lines of the written text ----------------------------------

  /** Each line followed by the newline that `"\n".join` puts after it. */
  function Ended(xs: seq<string>): (r: seq<string>)
    ensures |r| == |xs| && forall k :: 0 <= k < |xs| ==> r[k] == xs[k] + "\n"
  {
    seq(|xs|, k requires 0 <= k < |xs| => xs[k] + "\n")
  }

  predicate NewlineFree(xs: seq<string>) {
    forall k :: 0 <= k < |xs| ==> '\n' !in xs[k]
  }

  /** Joining lines that end with an empty one ends every line with a newline. */
  lemma {:induction false} JoinEnded(xs: seq<string>)
    ensures Join("\n", xs + [""]) == Concat(Ended(xs))
    decreases |xs|
  {
    if xs != [] {
      assert (xs + [""])[1..] == xs[1..] + [""];
      assert Ended(xs)[1..] == Ended(xs[1..]);
      JoinEnded(xs[1..]);
    }
  }

  lemma {:induction false} ConcatAppend(a: seq<string>, b: seq<string>)
    ensures Concat(a + b) == Concat(a) + Concat(b)
    decreases |a|
  {
    if a == [] {
      assert a + b == b;
    } else {
      assert (a + b)[1..] == a[1..] + b;
      ConcatAppend(a[1..], b);
    }
  }

  lemma {:induction false} EndedConcatEnds(xs: seq<string>)
    ensures var t := Concat(Ended(xs)); t == [] || t[|t| - 1] == '\n'
    decreases |xs|
  {
    if xs != [] {
      assert Ended(xs)[1..] == Ended(xs[1..]);
      EndedConcatEnds(xs[1..]);
    }
  }

  /** Newline-free lines, each ended, are the file lines of their text. */
  lemma {:induction false} FileLinesEnded(xs: seq<string>)
    requires NewlineFree(xs)
    ensures FileLines(Concat(Ended(xs))) == Ended(xs)
    decreases |xs|
  {
    if xs != [] {
      var rest := Concat(Ended(xs[1..]));
      assert Ended(xs)[1..] == Ended(xs[1..]);
      assert Concat(Ended(xs)) == (xs[0] + "\n") + rest;
      FileLinesOfLine(xs[0]);
      FileLinesAppend(xs[0] + "\n", rest);
      FileLinesEnded(xs[1..]);
    }
  }

  lemma EndedAppend(a: seq<string>, b: seq<string>)
    ensures Ended(a + b) == Ended(a) + Ended(b)
  {
  }

  /** The file lines of ended lines split where the lines do. */
  lemma FileLinesEndedAppend(a: seq<string>, b: seq<string>)
    ensures FileLines(Concat(Ended(a + b))) == FileLines(Concat(Ended(a))) + FileLines(Concat(Ended(b)))
  {
    EndedAppend(a, b);
    ConcatAppend(Ended(a), Ended(b));
    EndedConcatEnds(a);
    FileLinesAppend(Concat(Ended(a)), Concat(Ended(b)));
  }

  // ---- the particle-pair texts ---------------------------------------------------

  /** A pair whose values fit their columns and hold no newline. */
  predicate PairOk(rec: Record) {
    HasFields(ParticlePairFormat, rec) && Fits(ParticlePairFormat, rec) && NoNewlines(ParticlePairFormat, rec)
  }

  /** The filled template of a pair, before the writer drops two spaces. */
  function PairFilled(rec: Record): string
    requires HasFields(ParticlePairFormat, rec)
  {
    Encoded(PairTemplate, ParticlePairFormat, rec)
  }

  /** The three file lines the text of a pair becomes. */
  function PairPhys(rec: Record): seq<string>
    requires HasFields(ParticlePairFormat, rec)
  {
    var F := PairFilled(rec);
    [Slice(F, 0, 62) + "\n", Slice(F, 64, 114) + "\n", Slice(F, 116, 199) + "\n"]
  }

  function PairsPhys(ps: seq<Record>): seq<string>
    requires AllHave(ParticlePairFormat, ps)
    decreases |ps|
  {
    if ps == [] then [] else PairPhys(ps[0]) + PairsPhys(ps[1..])
  }

  /** What the scanner sees of a written pair: three lines, the first
      starting with `Name`, the others with a space, none blank, which joined
      by spaces give the filled template and a newline. */
  lemma PairPhysShape(rec: Record)
    requires PairOk(rec)
    ensures var P := PairPhys(rec);
      && FileLines(PairText(rec) + "\n") == P
      && StartsWith(P[0], "Name") && !StartsWith(P[1], "Name") && !StartsWith(P[2], "Name")
      && !IsBlank(P[0]) && !IsBlank(P[1]) && !IsBlank(P[2])
      && Join(" ", P) == PairFilled(rec) + "\n"
      && |PairFilled(rec)| == 199
  {
    PairWritten(rec);
    var F := PairFilled(rec);
    var A, B, C := F[..62], F[64..114], F[116..];
    assert Slice(F, 0, 62) == A && Slice(F, 64, 114) == B && Slice(F, 116, 199) == C;
    assert PairText(rec) == A + "\n" + B + "\n" + C;
    ThreeLines(A, B, C);
  }

  /** Three newline-free lines, the first opening with `Name` and the
      others with a space and not blank. */
  lemma ThreeLines(A: string, B: string, C: string)
    requires '\n' !in A && '\n' !in B && '\n' !in C
    requires StartsWith(A, "Name") && B != [] && B[0] == ' ' && C != [] && C[0] == ' ' && !IsBlank(B) && !IsBlank(C)
    ensures FileLines(A + "\n" + B + "\n" + C + "\n") == [A + "\n", B + "\n", C + "\n"]
    ensures StartsWith(A + "\n", "Name") && !StartsWith(B + "\n", "Name") && !StartsWith(C + "\n", "Name")
    ensures !IsBlank(A + "\n") && !IsBlank(B + "\n") && !IsBlank(C + "\n")
    ensures Join(" ", [A + "\n", B + "\n", C + "\n"]) == A + "\n " + B + "\n " + C + "\n"
  {
    ThreeFileLines(A, B, C);
    NamedEnded(A);
    SpaceNotNamed(B + "\n");
    SpaceNotNamed(C + "\n");
    EndedNotBlank(B);
    EndedNotBlank(C);
    JoinThree(A + "\n", B + "\n", C + "\n");
  }

  lemma ThreeFileLines(A: string, B: string, C: string)
    requires '\n' !in A && '\n' !in B && '\n' !in C
    ensures FileLines(A + "\n" + B + "\n" + C + "\n") == [A + "\n", B + "\n", C + "\n"]
  {
    ThreeEnded(A, B, C);
    FileLinesEnded([A, B, C]);
  }

  lemma NamedEnded(A: string)
    requires StartsWith(A, "Name")
    ensures StartsWith(A + "\n", "Name") && !IsBlank(A + "\n")
  {
    assert (A + "\n")[..4] == A[..4];
    assert !IsSpace((A + "\n")[0]);
  }

  lemma EndedNotBlank(B: string)
    requires !IsBlank(B)
    ensures !IsBlank(B + "\n")
  {
    assert forall i :: 0 <= i < |B| ==> (B + "\n")[i] == B[i];
  }

  lemma JoinThree(a: string, b: string, c: string)
    ensures Join(" ", [a, b, c]) == a + " " + b + " " + c
  {
    assert [a, b, c][1..] == [b, c] && [b, c][1..] == [c];
    assert Join(" ", [c]) == c;
    assert Join(" ", [b, c]) == b + " " + c;
  }

  lemma SpaceNotNamed(x: string)
    requires x != [] && x[0] == ' '
    ensures !StartsWith(x, "Name")
  {
    if |x| >= 4 {
      assert x[..4][0] == ' ';
    }
  }

  lemma ThreeEnded(A: string, B: string, C: string)
    ensures Concat(Ended([A, B, C])) == A + "\n" + B + "\n" + C + "\n"
  {
    var a, b, c := A + "\n", B + "\n", C + "\n";
    assert Ended([A, B, C]) == [a, b, c];
    assert [a, b, c][1..] == [b, c] && [b, c][1..] == [c];
    assert Concat([c]) == c;
  }

  predicate PairsOk(ps: seq<Record>) {
    AllHave(ParticlePairFormat, ps) && forall k :: 0 <= k < |ps| ==> PairOk(ps[k])
  }

  /** The written pair texts, each ended, are the three lines of every pair. */
  lemma {:induction false} FileLinesPairs(ps: seq<Record>)
    requires PairsOk(ps)
    ensures FileLines(Concat(Ended(PairLines(ps)))) == PairsPhys(ps)
    decreases |ps|
  {
    if ps != [] {
      assert PairsOk(ps[1..]) by {
        assert forall k :: 0 <= k < |ps| - 1 ==> ps[1..][k] == ps[k + 1];
      }
      var rest := Concat(Ended(PairLines(ps[1..])));
      assert PairLines(ps)[1..] == PairLines(ps[1..]);
      assert Ended(PairLines(ps))[1..] == Ended(PairLines(ps[1..]));
      assert Concat(Ended(PairLines(ps))) == (PairText(ps[0]) + "\n") + rest;
      PairPhysShape(ps[0]);
      FileLinesAppend(PairText(ps[0]) + "\n", rest);
      FileLinesPairs(ps[1..]);
    }
  }
}
