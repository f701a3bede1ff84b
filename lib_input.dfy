/** The first two cards of a SAMMY input file as the stand-alone input
    library writes them: each card is a record fixed when it is made, and
    its text is its fields laid out in fixed columns. */
module LibInput {
  import opened Text
  import opened CardFormat

  /** `InputFile.MAX_COLUMNS`. */
  function MaxColumns(): nat { 80 }

  /** Card 1: the title of the run. */
  datatype Card1 = Card1(title: string) {
    /** The title left-justified to the full 80 columns; a longer title is kept whole. */
    function Str(): (r: string)
      ensures |r| == Max(|title|, MaxColumns())
      ensures r[..|title|] == title
      ensures forall k :: |title| <= k < |r| ==> r[k] == ' '
    {
      FormatA(title, MaxColumns())
    }
  }

  /** A title that does not end in blanks reads back from its card. */
  lemma Card1ReadsBack(c: Card1)
    requires c.title == [] || !IsSpace(c.title[|c.title| - 1])
    ensures TrimEnd(c.Str()) == c.title
  {
    FormatATrims(c.title, MaxColumns());
  }

  /** Card 2: element, atomic weight, energy range and the ten integer options. */
  datatype Card2 = Card2(fields: Card2Fields) {
    /** The fourteen fields side by side; `fixed` renders a real with four decimals. */
    function Str(fixed: real -> string): (r: string)
      ensures Card2Fits(fields, fixed) ==> |r| == 79
      ensures Card2Fits(fields, fixed) ==> |fields.elmnt| <= |r| && r[..|fields.elmnt|] == fields.elmnt
      ensures Card2Fits(fields, fixed) ==> forall k :: 4 <= k < 14 ==>
        var ws := Card2Widths();
        Offset(ws, k) + ws[k] <= |r| && ParseInt(r[Offset(ws, k)..Offset(ws, k) + ws[k]]) == Some(Card2Ints(fields)[k - 4])
    {
      if Card2Fits(fields, fixed) then
        Card2Layout(fields, fixed);
        Card2NameFirst(fields, fixed);
        Card2ReadsBack(fields, fixed);
        Card2Text(fields, fixed)
      else
        Card2Text(fields, fixed)
    }
  }

  // ---- writing the cards -----------------------------------------------------------

  /** `write_to_file`: the text of each card followed by a newline. */
  function WriteText(cards: seq<string>): (r: string)
    ensures r == [] || r[|r| - 1] == '\n'
  {
    if cards == [] then [] else WriteText(cards[..|cards| - 1]) + cards[|cards| - 1] + "\n"
  }

  /** The file the cards are written to, read back line by line, is the cards, one per line. */
  lemma {:induction false} WriteTextLines(cards: seq<string>)
    requires forall k :: 0 <= k < |cards| ==> '\n' !in cards[k]
    ensures |FileLines(WriteText(cards))| == |cards|
    ensures forall k :: 0 <= k < |cards| ==> FileLines(WriteText(cards))[k] == cards[k] + "\n"
  {
    if cards != [] {
      var init, last := cards[..|cards| - 1], cards[|cards| - 1];
      var a := WriteText(init);
      WriteTextLines(init);
      assert WriteText(cards) == a + (last + "\n");
      FileLinesAppend(a, last + "\n");
      FileLinesOfLine(last);
      var ls := FileLines(WriteText(cards));
      assert ls == FileLines(a) + [last + "\n"];
      forall k | 0 <= k < |cards| ensures ls[k] == cards[k] + "\n" {
        if k < |init| {
          assert ls[k] == FileLines(a)[k];
          assert cards[k] == init[k];
        }
      }
    }
  }
}
