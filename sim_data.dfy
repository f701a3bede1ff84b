/** The cross-section reader of the simulation data module: a file is a
    sequence of lines, and the reader is a two-flag state machine over them.
    `float()` is a parameter `num` that either yields a number or raises. */
module SimData {
  import opened Text
  import opened NucData

  /** Why a cross-section read raises `ValueError`. */
  datatype XsError =
    | IsotopeNotFound   // no line names the isotope
    | BadLine           // a data line is not two numbers
    | NoData            // the isotope's block holds no data

  datatype XsResult<R> = Ok(data: seq<(R, R)>) | Err(error: XsError)

  /** The reader's state between two lines: the two flags, whether the scan
      has stopped, and the pairs read so far; or the exception on the way out. */
  datatype XsState<R> =
    | Scanning(found: bool, capture: bool, stopped: bool, data: seq<(R, R)>)
    | Raised

  predicate IsMarker(line: string) { Contains(line, "#data...") }

  /** A line that ends the scan once the isotope has been found. */
  predicate IsStop(line: string) { !IsMarker(line) && Contains(line, "//") }

  /** A line read as data while capturing. */
  predicate IsData(line: string) { !IsMarker(line) && !StartsWith(line, "#") }

  /** `energy, xs = line.split()` followed by `float()` of each. */
  function Pair<R>(line: string, num: string -> Option<R>): (r: Option<(R, R)>)
    ensures r.Some? <==> |Words(line)| == 2 && num(Words(line)[0]).Some? && num(Words(line)[1]).Some?
  {
    var w := Words(line);
    if |w| != 2 then None
    else
      match (num(w[0]), num(w[1]))
      case (Some(e), Some(x)) => Some((e, x))
      case _ => None
  }

  function PairParser<R>(num: string -> Option<R>): string -> Option<(R, R)> {
    line => Pair(line, num)
  }

  // ---- the state machine -----------------------------------------------------

  function Initial<R>(): XsState<R> { Scanning(false, false, false, []) }

  /** One pass of the loop body of `parse_xs_file` over `line`. */
  function Step<R>(st: XsState<R>, line: string, name: string, num: string -> Option<R>): XsState<R> {
    match st
    case Raised => Raised
    case Scanning(found, capture, stopped, data) =>
      if stopped || !(found || Contains(line, name)) then st
      else if IsMarker(line) then Scanning(true, true, false, data)
      else if Contains(line, "//") then Scanning(true, false, true, data)
      else if capture && !StartsWith(line, "#") then
        match Pair(line, num)
        case None => Raised
        case Some(p) => Scanning(true, capture, false, data + [p])
      else Scanning(true, capture, false, data)
  }

  /** The state after the loop body has run over every line of `lines`. */
  function Run<R>(lines: seq<string>, name: string, num: string -> Option<R>): XsState<R> {
    if lines == [] then Initial()
    else Step(Run(lines[..|lines| - 1], name, num), lines[|lines| - 1], name, num)
  }

  /** What `parse_xs_file` returns or raises once the loop is over. */
  function Finish<R>(st: XsState<R>): (r: XsResult<R>)
    ensures r == Err(IsotopeNotFound) <==> st.Scanning? && !st.found
    ensures r == Err(BadLine) <==> st.Raised?
  {
    match st
    case Raised => Err(BadLine)
    case Scanning(found, _, _, data) => if found then Ok(data) else Err(IsotopeNotFound)
  }

  function ParseXs<R>(lines: seq<string>, name: string, num: string -> Option<R>): XsResult<R> {
    Finish(Run(lines, name, num))
  }

  // ---- an independent description of the same reader -------------------------

  /** The first line satisfying `p`. */
  function FirstWhere(lines: seq<string>, p: string -> bool): (r: Option<nat>)
    ensures r.None? <==> forall k :: 0 <= k < |lines| ==> !p(lines[k])
    ensures r.Some? ==> r.value < |lines| && p(lines[r.value]) && forall k :: 0 <= k < r.value ==> !p(lines[k])
  {
    if lines == [] then None
    else
      var init := lines[..|lines| - 1];
      assert forall k :: 0 <= k < |init| ==> init[k] == lines[k];
      match FirstWhere(init, p)
      case Some(k) => Some(k)
      case None => if p(lines[|lines| - 1]) then Some(|lines| - 1) else None
  }

  /** The lines of `block` before its first stop line. */
  function Body(block: seq<string>): (r: seq<string>)
    ensures |r| <= |block|
  {
    match FirstWhere(block, IsStop)
    case None => block
    case Some(s) => block[..s]
  }

  /** The lines of `body` after its first marker. */
  function Captured(body: seq<string>): seq<string> {
    match FirstWhere(body, IsMarker)
    case None => []
    case Some(m) => body[m + 1..]
  }

  /** The state the reader should be in after the lines `block` that start
      at the first line naming the isotope: up to the first stop line (after
      which it has stopped and reads nothing), the lines after the first
      marker are the capture, and its data lines all parse (else it raised). */
  function Block<R>(block: seq<string>, num: string -> Option<R>): XsState<R> {
    var stopped := FirstWhere(block, IsStop).Some?;
    var marked := FirstWhere(Body(block), IsMarker).Some?;
    match ParseAll(Filter(Captured(Body(block)), IsData), PairParser(num))
    case None => Raised
    case Some(data) => Scanning(true, marked && !stopped, stopped, data)
  }

  /** `isotope_name in line`. */
  function Names(name: string): string -> bool {
    line => Contains(line, name)
  }

  /** Before the first line naming the isotope nothing has happened; from it on, `Block`. */
  function Expected<R>(lines: seq<string>, name: string, num: string -> Option<R>): XsState<R> {
    match FirstWhere(lines, Names(name))
    case None => Initial()
    case Some(f) => Block(lines[f..], num)
  }

  /** The file-level description: not found, a bad data line, or the pairs of
      the data lines of the isotope's block in file order. */
  function Reference<R>(lines: seq<string>, name: string, num: string -> Option<R>): XsResult<R> {
    Finish(Expected(lines, name, num))
  }

  // ---- the reader and its description agree ----------------------------------

  lemma FirstWhereAppend(lines: seq<string>, x: string, p: string -> bool)
    ensures FirstWhere(lines + [x], p) ==
      match FirstWhere(lines, p)
      case Some(k) => Some(k)
      case None => if p(x) then Some(|lines|) else None
  {
    assert (lines + [x])[..|lines|] == lines;
  }

  /** A stop line ends the body; the body grows by every other line until then. */
  lemma BodyAppend(block: seq<string>, x: string)
    ensures FirstWhere(block, IsStop).Some? ==> FirstWhere(block + [x], IsStop) == FirstWhere(block, IsStop)
    ensures FirstWhere(block + [x], IsStop).Some? <==> FirstWhere(block, IsStop).Some? || IsStop(x)
    ensures Body(block + [x]) == if FirstWhere(block, IsStop).Some? || IsStop(x) then Body(block) else Body(block) + [x]
  {
    FirstWhereAppend(block, x, IsStop);
    var b := block + [x];
    match FirstWhere(block, IsStop)
    case Some(s) => assert b[..s] == block[..s];
    case None => if IsStop(x) { assert b[..|block|] == block; }
  }

  /** The capture grows by every line after the first marker. */
  lemma CapturedAppend(body: seq<string>, x: string)
    ensures FirstWhere(body + [x], IsMarker).Some? <==> FirstWhere(body, IsMarker).Some? || IsMarker(x)
    ensures Captured(body + [x]) == if FirstWhere(body, IsMarker).Some? then Captured(body) + [x] else []
  {
    FirstWhereAppend(body, x, IsMarker);
    var b := body + [x];
    match FirstWhere(body, IsMarker)
    case Some(m) => assert b[m + 1..] == body[m + 1..] + [x];
    case None => if IsMarker(x) { assert b[|body| + 1..] == []; }
  }

  /** Filtering and parsing one more line. */
  lemma FilterParseStep<T>(c: seq<string>, x: string, keep: string -> bool, parse: string -> Option<T>)
    ensures ParseAll(Filter(c + [x], keep), parse) ==
      if !keep(x) then ParseAll(Filter(c, keep), parse)
      else match ParseAll(Filter(c, keep), parse)
        case None => None
        case Some(d) => (match parse(x) case None => None case Some(p) => Some(d + [p]))
  {
    assert Filter(c + [x], keep) == Filter(c, keep) + (if keep(x) then [x] else []) by {
      assert (c + [x])[..|c|] == c;
    }
    if keep(x) {
      ParseAllStep(Filter(c, keep), x, parse);
    } else {
      assert Filter(c, keep) + [] == Filter(c, keep);
    }
  }

  /** Reading one more line of the isotope's block is one more step of the state machine. */
  lemma BlockStep<R>(block: seq<string>, x: string, name: string, num: string -> Option<R>)
    ensures Block(block + [x], num) == Step(Block(block, num), x, name, num)
  {
    BodyAppend(block, x);
    var body := Body(block);
    if FirstWhere(block, IsStop).None? && !IsStop(x) {
      CapturedAppend(body, x);
      if FirstWhere(body, IsMarker).Some? {
        FilterParseStep(Captured(body), x, IsData, PairParser(num));
      }
    }
  }

  /** Reading one more line of the file is one more step of the state machine. */
  lemma ExpectedStep<R>(init: seq<string>, x: string, name: string, num: string -> Option<R>)
    ensures Expected(init + [x], name, num) == Step(Expected(init, name, num), x, name, num)
  {
    FirstWhereAppend(init, x, Names(name));
    match FirstWhere(init, Names(name))
    case None =>
      if Contains(x, name) {
        assert (init + [x])[|init|..] == [] + [x];
        BlockStep([], x, name, num);
        assert Block([], num) == Scanning(true, false, false, []) by {
          assert Body([]) == [] && Captured([]) == [] && Filter([], IsData) == [];
        }
      }
    case Some(f) =>
      SuffixAppend(init, x, f);
      BlockStep(init[f..], x, name, num);
  }

  lemma SuffixAppend(init: seq<string>, x: string, f: nat)
    requires f <= |init|
    ensures (init + [x])[f..] == init[f..] + [x]
  {
  }

  /** The state machine is in the state the block-by-block description gives, after every file. */
  lemma {:induction false} RunIsExpected<R>(lines: seq<string>, name: string, num: string -> Option<R>)
    ensures Run(lines, name, num) == Expected(lines, name, num)
    decreases |lines|, 1
  {
    if lines != [] {
      var init, x := lines[..|lines| - 1], lines[|lines| - 1];
      assert lines == init + [x];
      RunIsExpectedSnoc(init, x, name, num);
    }
  }

  lemma {:induction false} RunIsExpectedSnoc<R>(init: seq<string>, x: string, name: string, num: string -> Option<R>)
    ensures Run(init + [x], name, num) == Expected(init + [x], name, num)
    decreases |init| + 1, 0
  {
    RunIsExpected(init, name, num);
    RunSnoc(init, x, name, num);
    ExpectedStep(init, x, name, num);
  }

  lemma RunSnoc<R>(init: seq<string>, x: string, name: string, num: string -> Option<R>)
    ensures Run(init + [x], name, num) == Step(Run(init, name, num), x, name, num)
  {
    assert (init + [x])[..|init|] == init;
  }

  /** `parse_xs_file` returns exactly what the description says, on every file. */
  lemma ParseXsIsReference<R>(lines: seq<string>, name: string, num: string -> Option<R>)
    ensures ParseXs(lines, name, num) == Reference(lines, name, num)
  {
    RunIsExpected(lines, name, num);
  }

  /** The read raises the not-found error exactly when no line names the isotope. */
  lemma NotFoundIff<R>(lines: seq<string>, name: string, num: string -> Option<R>)
    ensures ParseXs(lines, name, num) == Err(IsotopeNotFound) <==> forall k :: 0 <= k < |lines| ==> !Contains(lines[k], name)
  {
    RunIsExpected(lines, name, num);
  }

  /** Once the loop has stopped or raised, later lines change nothing. */
  lemma {:induction false} RunSettled<R>(lines: seq<string>, i: nat, name: string, num: string -> Option<R>)
    requires i <= |lines|
    requires Run(lines[..i], name, num).Raised? || Run(lines[..i], name, num).stopped
    ensures Run(lines, name, num) == Run(lines[..i], name, num)
    decreases |lines|
  {
    if i < |lines| {
      var init := lines[..|lines| - 1];
      assert init[..i] == lines[..i];
      RunSettled(init, i, name, num);
    } else {
      assert lines[..i] == lines;
    }
  }

  lemma RunPrefixStep<R>(lines: seq<string>, i: nat, name: string, num: string -> Option<R>)
    requires i < |lines|
    ensures Run(lines[..i + 1], name, num) == Step(Run(lines[..i], name, num), lines[i], name, num)
  {
    assert lines[..i + 1] == lines[..i] + [lines[i]];
    RunSnoc(lines[..i], lines[i], name, num);
  }

  // ---- the reader as written -------------------------------------------------

  /** `parse_xs_file` over the lines of the file. */
  method ParseXsFile<R>(lines: seq<string>, name: string, num: string -> Option<R>) returns (r: XsResult<R>)
    ensures r == ParseXs(lines, name, num)
  {
    var xsData: seq<(R, R)> := [];
    var found, capture := false, false;
    var i := 0;
    while i < |lines|
      invariant i <= |lines|
      invariant Run(lines[..i], name, num) == Scanning(found, capture, false, xsData)
    {
      RunPrefixStep(lines, i, name, num);
      var stop, bad;
      found, capture, stop, bad, xsData := ReadLine(found, capture, xsData, lines[i], name, num);
      if bad {
        RunSettled(lines, i + 1, name, num);
        return Err(BadLine);
      }
      if stop {
        RunSettled(lines, i + 1, name, num);
        return Finish(Scanning(found, capture, true, xsData));
      }
      i := i + 1;
    }
    assert lines[..i] == lines;
    if !found {
      return Err(IsotopeNotFound);
    }
    return Ok(xsData);
  }

  /** The body of the loop of `parse_xs_file` for one line: `stop` where it
      breaks out at the end of the block, `bad` where the line raises. */
  method ReadLine<R>(found0: bool, capture0: bool, xsData0: seq<(R, R)>, line: string, name: string, num: string -> Option<R>)
    returns (found: bool, capture: bool, stop: bool, bad: bool, xsData: seq<(R, R)>)
    ensures Step(Scanning(found0, capture0, false, xsData0), line, name, num) ==
      if bad then Raised else Scanning(found, capture, stop, xsData)
  {
    found, capture, stop, bad, xsData := found0, capture0, false, false, xsData0;
    if Contains(line, name) {
      found := true;
    }
    if found {
      if IsMarker(line) {
        capture := true;
      } else if Contains(line, "//") {
        capture, stop := false, true;
      } else if capture && !StartsWith(line, "#") {
        var w := Words(line);
        var energy, xs := if |w| == 2 then num(w[0]) else None, if |w| == 2 then num(w[1]) else None;
        if energy.None? || xs.None? {
          bad := true;
          return;
        }
        assert Pair(line, num) == Some((energy.value, xs.value));
        xsData := xsData + [(energy.value, xs.value)];
      }
    }
  }

  /** An isotope of the sample and the cross-section data loaded for it. */
  class Isotope<R> {
    var name: string
    var xsFileLocation: string
    var xsData: seq<(R, R)>

    constructor(name: string, xsFileLocation: string)
      ensures this.name == name && this.xsFileLocation == xsFileLocation && xsData == []
    {
      this.name := name;
      this.xsFileLocation := xsFileLocation;
      xsData := [];
    }

    /** `load_xs_data`, given the lines of the file at `xsFileLocation`: a
        read that raises leaves `xsData` as it was, and an empty read is
        stored and then raises. */
    method LoadXsData(lines: seq<string>, num: string -> Option<R>) returns (err: Option<XsError>)
      modifies this
      ensures name == old(name) && xsFileLocation == old(xsFileLocation)
      ensures match ParseXs(lines, old(name), num)
        case Err(e) => err == Some(e) && xsData == old(xsData)
        case Ok(d) => xsData == d && err == (if d == [] then Some(NoData) else None)
    {
      var r := ParseXsFile(lines, name, num);
      match r
      case Err(e) =>
        err := Some(e);
      case Ok(d) =>
        xsData := d;
        err := if d == [] then Some(NoData) else None;
    }
  }
}
