/** The cat tool: every named source is copied to standard output line by line, plain,
    with every line numbered, or with only the non-empty lines numbered. */
module Catr {
  import opened Streams
  import Decimal

  /** The parsed arguments: the names to read (`-` by default), `-n` and `-b`. */
  datatype Config = Config(files: seq<string>, numberLines: bool, numberNonblankLines: bool)

  /** What argument parsing guarantees: at least one name, and `-n` and `-b` not both. */
  predicate ValidConfig(c: Config)
  {
    |c.files| > 0 && !(c.numberLines && c.numberNonblankLines)
  }

  datatype Mode = Plain | NumberAll | NumberNonblank

  /** The choice between the three print functions in `run`. */
  function ModeOf(c: Config): (m: Mode)
    ensures !(c.numberLines && c.numberNonblankLines) ==> (m == NumberAll <==> c.numberLines)
    ensures !(c.numberLines && c.numberNonblankLines) ==> (m == NumberNonblank <==> c.numberNonblankLines)
    ensures c.numberLines && c.numberNonblankLines ==> m == Plain
  {
    match (c.numberLines, c.numberNonblankLines)
    case (true, false) => NumberAll
    case (false, true) => NumberNonblank
    case _ => Plain
  }

  /** The lines a `lines()` iterator over `input` yields before its first error. */
  function Lines(input: seq<Read>): (ls: seq<string>)
    ensures |ls| <= |input|
    ensures forall k :: 0 <= k < |ls| ==> input[k] == Data(ls[k])
    ensures |ls| < |input| ==> input[|ls|].Error?
  {
    if |input| == 0 || input[0].Error? then [] else [input[0].text] + Lines(input[1..])
  }

  /** How reading to the end finishes: with the first read error, if there is one. */
  function Ending(input: seq<Read>): (st: Status)
    ensures st.Aborted? <==> exists k :: 0 <= k < |input| && input[k].Error?
    ensures st.Aborted? ==> input[|Lines(input)|] == Error(st.message)
  {
    var m := |Lines(input)|;
    if m < |input| then Aborted(input[m].message) else Done
  }

  /** How many of the first `k` lines are not empty. */
  function NonBlankCount(ls: seq<string>, k: nat): (c: nat)
    requires k <= |ls|
    ensures c <= k
  {
    if k == 0 then 0
    else NonBlankCount(ls, k - 1) + (if ls[k - 1] == "" then 0 else 1)
  }

  /** `{:>6}` of a line number. */
  function Number(n: nat): string
  {
    Decimal.RightAlign(Decimal.Format(n), 6)
  }

  /** What is printed for line `k` (0-based) of `ls`, newline included. */
  function RenderLine(mode: Mode, ls: seq<string>, k: nat): string
    requires k < |ls|
  {
    match mode
    case Plain => ls[k] + "\n"
    case NumberAll => Number(k + 1) + "\t" + ls[k] + "\n"
    case NumberNonblank =>
      if ls[k] == "" then "\n" else Number(NonBlankCount(ls, k) + 1) + "\t" + ls[k] + "\n"
  }

  /** What is printed for the lines `ls`, one print per line. */
  function Render(mode: Mode, ls: seq<string>): (ws: seq<string>)
    ensures |ws| == |ls|
  {
    seq(|ls|, k requires 0 <= k < |ls| => RenderLine(mode, ls, k))
  }

  /** What one of the three print functions writes for a reader, and how it ends. */
  function CatLines(mode: Mode, input: seq<Read>): Emitted
  {
    Emitted(Render(mode, Lines(input)), Ending(input))
  }

  /** One more printed line extends the output by the rendering of that line. */
  lemma {:induction false} RenderStep(ws: seq<string>, i: nat, writes: seq<string>, w: string)
    requires i < |ws| && writes == ws[..i] && w == ws[i]
    ensures writes + [w] == ws[..i + 1]
  {
  }

  /** `print_line_by_line`. */
  method PrintLineByLine(input: seq<Read>) returns (e: Emitted)
    ensures e == CatLines(Plain, input)
  {
    ghost var ls := Lines(input);
    var writes: seq<string> := [];
    var i := 0;
    while i < |input|
      invariant i <= |ls|
      invariant writes == Render(Plain, ls)[..i]
    {
      match input[i] {
        case Error(msg) =>
          assert Render(Plain, ls)[..i] == Render(Plain, ls);
          return Emitted(writes, Aborted(msg));
        case Data(line) =>
          var w := line + "\n";
          RenderStep(Render(Plain, ls), i, writes, w);
          writes := writes + [w];
      }
      i := i + 1;
    }
    assert Render(Plain, ls)[..i] == Render(Plain, ls);
    return Emitted(writes, Done);
  }

  /** `print_line_by_line_with_number`. */
  method PrintLineByLineWithNumber(input: seq<Read>) returns (e: Emitted)
    ensures e == CatLines(NumberAll, input)
  {
    ghost var ls := Lines(input);
    var writes: seq<string> := [];
    var idx := 0;
    while idx < |input|
      invariant idx <= |ls|
      invariant writes == Render(NumberAll, ls)[..idx]
    {
      match input[idx] {
        case Error(msg) =>
          assert Render(NumberAll, ls)[..idx] == Render(NumberAll, ls);
          return Emitted(writes, Aborted(msg));
        case Data(line) =>
          var w := Number(idx + 1) + "\t" + line + "\n";
          RenderStep(Render(NumberAll, ls), idx, writes, w);
          writes := writes + [w];
      }
      idx := idx + 1;
    }
    assert Render(NumberAll, ls)[..idx] == Render(NumberAll, ls);
    return Emitted(writes, Done);
  }

  /** One line of the non-blank numbering: what it prints given the running counter, and
      how the counter moves. */
  lemma {:induction false} NonblankStep(ls: seq<string>, i: nat, idx: nat)
    requires i < |ls| && idx == NonBlankCount(ls, i) + 1
    ensures RenderLine(NumberNonblank, ls, i)
            == if ls[i] == "" then "\n" else Number(idx) + "\t" + ls[i] + "\n"
    ensures NonBlankCount(ls, i + 1) + 1 == if ls[i] == "" then idx else idx + 1
  {
  }

  /** One pass of the non-blank numbering loop: the print it adds and the counter it
      leaves keep the output equal to the rendering of the lines read so far. */
  lemma {:induction false} NonblankAdvance(ls: seq<string>, i: nat, idx: nat, writes: seq<string>)
    requires i < |ls| && idx == NonBlankCount(ls, i) + 1
    requires writes == Render(NumberNonblank, ls)[..i]
    ensures ls[i] == "" ==>
              writes + ["\n"] == Render(NumberNonblank, ls)[..i + 1] && idx == NonBlankCount(ls, i + 1) + 1
    ensures ls[i] != "" ==>
              writes + [Number(idx) + "\t" + ls[i] + "\n"] == Render(NumberNonblank, ls)[..i + 1] &&
              idx + 1 == NonBlankCount(ls, i + 1) + 1
  {
    NonblankStep(ls, i, idx);
    RenderStep(Render(NumberNonblank, ls), i, writes, RenderLine(NumberNonblank, ls, i));
  }

  /** `print_line_by_line_with_number_skip_empty`: the counter moves only on a
      non-empty line. */
  method PrintLineByLineWithNumberSkipEmpty(input: seq<Read>) returns (e: Emitted)
    ensures e == CatLines(NumberNonblank, input)
  {
    ghost var ls := Lines(input);
    var writes: seq<string> := [];
    var idx := 1;
    var i := 0;
    while i < |input|
      invariant i <= |ls|
      invariant idx == NonBlankCount(ls, i) + 1
      invariant writes == Render(NumberNonblank, ls)[..i]
    {
      match input[i] {
        case Error(msg) =>
          assert Render(NumberNonblank, ls)[..i] == Render(NumberNonblank, ls);
          return Emitted(writes, Aborted(msg));
        case Data(line) =>
          NonblankAdvance(ls, i, idx, writes);
          if line == "" {
            writes := writes + ["\n"];
          } else {
            writes := writes + [Number(idx) + "\t" + line + "\n"];
            idx := idx + 1;
          }
      }
      i := i + 1;
    }
    assert Render(NumberNonblank, ls)[..i] == Render(NumberNonblank, ls);
    return Emitted(writes, Done);
  }

  /** The choice in `run` of the print function for an opened file. */
  method PrintFile(c: Config, input: seq<Read>) returns (e: Emitted)
    ensures e == CatLines(ModeOf(c), input)
  {
    match (c.numberLines, c.numberNonblankLines) {
      case (true, false) => e := PrintLineByLineWithNumber(input);
      case (false, true) => e := PrintLineByLineWithNumberSkipEmpty(input);
      case _ => e := PrintLineByLine(input);
    }
  }

  /** What file `name` contributes to a run. */
  function CatFile(mode: Mode, name: string, src: Source<seq<Read>>): Trace
  {
    match src
    case OpenFailed(reason) => Trace([], ["Failed to open " + name + ": " + reason + "\n"], Done)
    case Opened(input) =>
      var e := CatLines(mode, input);
      Trace(e.writes, [], e.status)
  }

  /** The block a run hands every file to. */
  function FileBlock(c: Config): (nat, string, Source<seq<Read>>) -> Trace
  {
    (i: nat, name: string, src: Source<seq<Read>>) => CatFile(ModeOf(c), name, src)
  }

  /** A file of a run that fails to open adds its message to standard error. */
  lemma {:induction false} FailedOpenStep(c: Config, fs: FileSystem<seq<Read>>, i: nat)
    requires i < |c.files| && Open(fs, c.files[i]).OpenFailed?
    requires ProcessFiles(c.files, fs, FileBlock(c), i).status.Done?
    ensures var t := ProcessFiles(c.files, fs, FileBlock(c), i);
            ProcessFiles(c.files, fs, FileBlock(c), i + 1) ==
              Trace(t.out, t.err + ["Failed to open " + c.files[i] + ": " + Open(fs, c.files[i]).reason + "\n"], Done)
  {
    RunStep(c.files, fs, FileBlock(c), i);
  }

  /** A file of a run that opens adds what its print function `e` wrote; the run goes
      on as that function ended. */
  lemma {:induction false} OpenedFileStep(c: Config, fs: FileSystem<seq<Read>>, i: nat, input: seq<Read>, e: Emitted)
    requires i < |c.files| && Open(fs, c.files[i]) == Opened(input)
    requires ProcessFiles(c.files, fs, FileBlock(c), i).status.Done?
    requires e == CatLines(ModeOf(c), input)
    ensures var t := ProcessFiles(c.files, fs, FileBlock(c), i);
            ProcessFiles(c.files, fs, FileBlock(c), i + 1) == Trace(t.out + e.writes, t.err, e.status)
  {
    RunStep(c.files, fs, FileBlock(c), i);
  }

  /** What a whole run writes. */
  function Cat(c: Config, fs: FileSystem<seq<Read>>): Trace
  {
    ProcessFiles(c.files, fs, FileBlock(c), |c.files|)
  }

  /** `run`: the files in order; an open failure is reported and skipped, a read error
      ends the run. */
  method Run(c: Config, fs: FileSystem<seq<Read>>) returns (t: Trace)
    ensures t == Cat(c, fs)
  {
    var out: seq<string> := [];
    var err: seq<string> := [];
    for i := 0 to |c.files|
      invariant ProcessFiles(c.files, fs, FileBlock(c), i) == Trace(out, err, Done)
    {
      var name := c.files[i];
      match Open(fs, name) {
        case OpenFailed(reason) =>
          FailedOpenStep(c, fs, i);
          err := err + ["Failed to open " + name + ": " + reason + "\n"];
        case Opened(input) =>
          var e := PrintFile(c, input);
          OpenedFileStep(c, fs, i, input, e);
          out := out + e.writes;
          if e.status.Aborted? {
            AbortIsFinal(c.files, fs, FileBlock(c), i + 1, |c.files|);
            return Trace(out, err, e.status);
          }
      }
    }
    return Trace(out, err, Done);
  }
}

/** What the cat tool's output says, read back from the printed text. */
module CatrProperties {
  import opened Wrappers
  import opened Streams
  import Decimal
  import opened Catr

  /** The line number in front of the first tab of a printed line: the characters
      before the tab, less leading spaces, read as a decimal number. */
  function NumberField(w: string): Option<nat>
  {
    var t := IndexOf(w, '\t');
    var f := Decimal.TrimLeadingSpaces(w[..t]);
    if t < |w| && f != "" && Decimal.AllDigits(f) then Some(Decimal.Value(f)) else None
  }

  /** What follows the first tab of a printed line. */
  function AfterTab(w: string): string
  {
    var t := IndexOf(w, '\t');
    if t < |w| then w[t + 1..] else w
  }

  /** A line-number field holds spaces and digits only, and trims to the number. */
  lemma {:induction false} NumberField6(n: nat)
    ensures forall j :: 0 <= j < |Number(n)| ==> Number(n)[j] != '\t'
    ensures Decimal.TrimLeadingSpaces(Number(n)) == Decimal.Format(n)
  {
    var d := Decimal.Format(n);
    var num := Number(n);
    forall j | 0 <= j < |num|
      ensures num[j] != '\t'
    {
      if j >= |num| - |d| {
        assert num[j] == num[|num| - |d|..][j - (|num| - |d|)];
      }
    }
    Decimal.TrimRightAlign(d, 6);
  }

  /** A field without a tab ends at the first tab. */
  lemma {:induction false} FieldBeforeTab(field: string, rest: string)
    requires forall j :: 0 <= j < |field| ==> field[j] != '\t'
    ensures IndexOf(field + "\t" + rest, '\t') == |field|
    ensures (field + "\t" + rest)[..|field|] == field
    ensures AfterTab(field + "\t" + rest) == rest
  {
    var w := field + "\t" + rest;
    assert w == field + ("\t" + rest);
    IndexOfAfter(field, "\t" + rest, '\t');
    assert w[|field| + 1..] == rest;
  }

  /** A numbered line reads back as its number, then the line itself. */
  lemma {:induction false} NumberedLineReadsBack(n: nat, line: string)
    ensures NumberField(Number(n) + "\t" + line + "\n") == Some(n)
    ensures AfterTab(Number(n) + "\t" + line + "\n") == line + "\n"
  {
    var num := Number(n);
    var w := num + "\t" + (line + "\n");
    assert w == Number(n) + "\t" + line + "\n";
    NumberField6(n);
    FieldBeforeTab(num, line + "\n");
  }

  /** A blank line in number-nonblank mode carries no number and no tab. */
  lemma {:induction false} BlankLineHasNoNumber()
    ensures NumberField("\n") == None
    ensures AfterTab("\n") == "\n"
  {
    assert IndexOf("\n", '\t') == 1;
  }

  /** In number-all mode, output line `k` (0-based) carries the number `k + 1`,
      followed by input line `k` unchanged. */
  lemma {:induction false} NumberAllNumbersEveryLine(ls: seq<string>, k: nat)
    requires k < |ls|
    ensures NumberField(Render(NumberAll, ls)[k]) == Some(k + 1)
    ensures AfterTab(Render(NumberAll, ls)[k]) == ls[k] + "\n"
  {
    NumberedLineReadsBack(k + 1, ls[k]);
  }

  /** The number a printed line carries, as a list of none or one. */
  function NumberOf(w: string): seq<nat>
  {
    match NumberField(w)
    case Some(v) => [v]
    case None => []
  }

  /** The first `n` lists of `nss`, one after another. */
  function Flatten(nss: seq<seq<nat>>, n: nat): seq<nat>
    requires n <= |nss|
  {
    if n == 0 then [] else Flatten(nss, n - 1) + nss[n - 1]
  }

  /** The numbers read back from the printed lines that carry one, in order. */
  function Numbers(ws: seq<string>): seq<nat>
  {
    Flatten(seq(|ws|, k requires 0 <= k < |ws| => NumberOf(ws[k])), |ws|)
  }

  /** 1, 2, ..., c. */
  function OneTo(c: nat): (r: seq<nat>)
    ensures |r| == c
  {
    if c == 0 then [] else OneTo(c - 1) + [c]
  }

  /** The element at position `i` of `OneTo(c)` is `i + 1`. */
  lemma {:induction false} OneToCounts(c: nat, i: nat)
    requires i < c
    ensures OneTo(c)[i] == i + 1
  {
    if i < c - 1 {
      OneToCounts(c - 1, i);
    }
  }

  /** The number line `k` carries in number-nonblank mode. */
  lemma {:induction false} NonblankLineNumber(ls: seq<string>, k: nat)
    requires k < |ls|
    ensures NumberOf(Render(NumberNonblank, ls)[k]) ==
              if ls[k] == "" then [] else [NonBlankCount(ls, k) + 1]
  {
    var c := NonBlankCount(ls, k);
    var w := Render(NumberNonblank, ls)[k];
    assert w == RenderLine(NumberNonblank, ls, k);
    if ls[k] == "" {
      assert w == "\n";
      BlankLineHasNoNumber();
    } else {
      assert w == Number(c + 1) + "\t" + ls[k] + "\n";
      NumberedLineReadsBack(c + 1, ls[k]);
    }
  }

  /** Appending the next number, or nothing for a blank line, keeps the list 1, 2, .... */
  lemma {:induction false} OneToStep(prev: seq<nat>, c: nat, tail: seq<nat>, blank: bool)
    requires prev == OneTo(c)
    requires tail == if blank then [] else [c + 1]
    ensures prev + tail == OneTo(c + if blank then 0 else 1)
  {
    if blank {
      assert prev + [] == prev;
    }
  }

  /** Per-line number lists `nss` for read lines `ls` in which every non-empty line has
      the count of non-empty lines up to it and no blank line has a number: together the
      first `n` of them are 1, 2, ... with no gap. */
  lemma {:induction false} CountedNumbers(nss: seq<seq<nat>>, ls: seq<string>, n: nat)
    requires n <= |nss| == |ls|
    requires forall k {:trigger nss[k]} :: 0 <= k < |ls| ==>
               nss[k] == if ls[k] == "" then [] else [NonBlankCount(ls, k) + 1]
    ensures Flatten(nss, n) == OneTo(NonBlankCount(ls, n))
  {
    if n > 0 {
      CountedNumbers(nss, ls, n - 1);
      OneToStep(Flatten(nss, n - 1), NonBlankCount(ls, n - 1), nss[n - 1], ls[n - 1] == "");
    }
  }

  /** Line `k` in number-nonblank mode: a bare newline when it is blank, and otherwise
      the count of non-empty lines up to it, a tab, and the line. */
  lemma {:induction false} NonblankLineShape(ls: seq<string>, k: nat)
    requires k < |ls|
    ensures ls[k] == "" ==> Render(NumberNonblank, ls)[k] == "\n"
    ensures ls[k] != "" ==> NumberField(Render(NumberNonblank, ls)[k]) == Some(NonBlankCount(ls, k + 1))
    ensures ls[k] != "" ==> AfterTab(Render(NumberNonblank, ls)[k]) == ls[k] + "\n"
  {
    if ls[k] != "" {
      NumberedLineReadsBack(NonBlankCount(ls, k) + 1, ls[k]);
    }
  }

  /** Number-nonblank mode: a blank line is printed as a bare newline, and every other
      line gets a number and a tab in front of it. */
  lemma {:induction false} NonblankLinesShape(ls: seq<string>)
    ensures forall k {:trigger Render(NumberNonblank, ls)[k]} ::
              0 <= k < |ls| && ls[k] == "" ==> Render(NumberNonblank, ls)[k] == "\n"
    ensures forall k {:trigger Render(NumberNonblank, ls)[k]} :: 0 <= k < |ls| && ls[k] != "" ==>
              NumberField(Render(NumberNonblank, ls)[k]) == Some(NonBlankCount(ls, k + 1)) &&
              AfterTab(Render(NumberNonblank, ls)[k]) == ls[k] + "\n"
  {
    forall k | 0 <= k < |ls| {
      NonblankLineShape(ls, k);
    }
  }

  /** `Numbers` of printed lines whose number lists are known one by one. */
  lemma {:induction false} NumbersFromLists(ws: seq<string>, nss: seq<seq<nat>>)
    requires |nss| == |ws|
    requires forall k {:trigger nss[k]} :: 0 <= k < |ws| ==> nss[k] == NumberOf(ws[k])
    ensures Numbers(ws) == Flatten(nss, |ws|)
  {
    assert seq(|ws|, k requires 0 <= k < |ws| => NumberOf(ws[k])) == nss;
  }

  /** Number-nonblank mode: the numbers are 1, 2, ... up to the number of non-empty
      lines, with no gap and no repeat. */
  lemma {:induction false} NonblankNumbersAreConsecutive(ls: seq<string>)
    ensures Numbers(Render(NumberNonblank, ls)) == OneTo(NonBlankCount(ls, |ls|))
  {
    var ws := Render(NumberNonblank, ls);
    var nss := seq(|ls|, k requires 0 <= k < |ls| =>
                 if ls[k] == "" then [] else [NonBlankCount(ls, k) + 1]);
    forall k | 0 <= k < |ls|
      ensures nss[k] == NumberOf(ws[k])
    {
      NonblankLineNumber(ls, k);
    }
    NumbersFromLists(ws, nss);
    CountedNumbers(nss, ls, |ls|);
  }

  /** Text cut into newline-terminated lines, each without its newline; a last line
      with no newline is kept. */
  function SplitLines(s: string): seq<string>
    decreases |s|
  {
    if |s| == 0 then []
    else
      var i := IndexOf(s, '\n');
      if i == |s| then [s] else [s[..i]] + SplitLines(s[i + 1..])
  }

  /** Splitting text that starts with a newline-free line and its newline takes that
      line off first. */
  lemma {:induction false} SplitFirstLine(line: string, rest: string)
    requires '\n' !in line
    ensures SplitLines(line + "\n" + rest) == [line] + SplitLines(rest)
  {
    var s := line + ("\n" + rest);
    assert line + "\n" + rest == s;
    IndexOfAfter(line, "\n" + rest, '\n');
    assert IndexOf("\n" + rest, '\n') == 0;
    assert s[..|line|] == line;
    assert s[|line| + 1..] == rest;
  }

  /** Plain mode reproduces its input: cutting the printed text at its newlines gives
      back the lines that were read. */
  lemma {:induction false} PlainReproducesLines(ls: seq<string>)
    requires forall k :: 0 <= k < |ls| ==> '\n' !in ls[k]
    ensures SplitLines(Concat(Render(Plain, ls))) == ls
  {
    if |ls| > 0 {
      var ws := Render(Plain, ls);
      assert ws[1..] == Render(Plain, ls[1..]);
      PlainReproducesLines(ls[1..]);
      assert Concat(ws) == ls[0] + "\n" + Concat(ws[1..]);
      SplitFirstLine(ls[0], Concat(ws[1..]));
    }
  }

  /** A run in which no opened file has a read error goes through every file: standard
      output holds the files' outputs in order, and standard error one message per file
      that failed to open. */
  lemma {:induction false} CatWithoutReadErrors(c: Config, fs: FileSystem<seq<Read>>)
    requires forall i :: 0 <= i < |c.files| && Open(fs, c.files[i]).Opened? ==>
               forall k :: 0 <= k < |Open(fs, c.files[i]).content| ==> Open(fs, c.files[i]).content[k].Data?
    ensures var bs := Blocks(c.files, fs, FileBlock(c), |c.files|);
            Cat(c, fs) == Trace(Outs(bs), Errs(bs), Done)
  {
    NoReadErrorWritesEveryBlock(c.files, fs, FileBlock(c), |c.files|);
  }

  /** In both numbering modes a non-empty first line carries the number 1. */
  lemma {:induction false} FirstLineIsNumberOne(mode: Mode, ls: seq<string>)
    requires mode != Plain && 0 < |ls| && ls[0] != ""
    ensures NumberField(Render(mode, ls)[0]) == Some(1)
  {
    assert ls[..0] == [];
    NumberedLineReadsBack(1, ls[0]);
  }

  /** Numbering restarts for every file: in a numbering mode, the first line of each file
      the run reaches is printed with the number 1 when it is not empty. */
  lemma {:induction false} NumberingRestartsPerFile(c: Config, fs: FileSystem<seq<Read>>, i: nat)
    requires i < |c.files| && ModeOf(c) != Plain
    requires ProcessFiles(c.files, fs, FileBlock(c), i).status.Done?
    requires Open(fs, c.files[i]).Opened?
    requires var input := Open(fs, c.files[i]).content;
             0 < |input| && input[0].Data? && input[0].text != ""
    ensures var at := |ProcessFiles(c.files, fs, FileBlock(c), i).out|;
            at < |Cat(c, fs).out| && NumberField(Cat(c, fs).out[at]) == Some(1)
  {
    var input := Open(fs, c.files[i]).content;
    var ls := Lines(input);
    assert 0 < |ls|;
    BlockFollowsEarlierFiles(c.files, fs, FileBlock(c), i);
    var before := ProcessFiles(c.files, fs, FileBlock(c), i).out;
    var b := Block(c.files, fs, FileBlock(c), i).out;
    assert b == Render(ModeOf(c), ls);
    FirstLineIsNumberOne(ModeOf(c), ls);
    assert (before + b)[|before|] == b[0];
  }

  /** The fields of the numbers 1 and 2: five spaces, then the digit. */
  lemma {:induction false} SmallNumbers()
    ensures Number(1) == "     1" && Number(2) == "     2"
  {
    assert Decimal.Spaces(5) == "     ";
    assert Decimal.Format(1) == "1";
    assert Decimal.Format(2) == "2";
  }

  /** The three reads "a", "" and "b" are three lines. */
  lemma {:induction false} SampleLines()
    ensures Lines([Data("a"), Data(""), Data("b")]) == ["a", "", "b"]
  {
    var input := [Data("a"), Data(""), Data("b")];
    assert Lines(input[2..]) == ["b"];
    assert Lines(input[1..]) == ["", "b"];
  }

  /** A non-empty line, a blank line and a non-empty line in number-nonblank mode are
      numbered 1, left bare, and numbered 2. */
  lemma {:induction false} NonblankThreeLines(a: string, b: string)
    requires a != "" && b != ""
    ensures Render(NumberNonblank, [a, "", b]) ==
              [Number(1) + "\t" + a + "\n", "\n", Number(2) + "\t" + b + "\n"]
  {
    var ls := [a, "", b];
    NonblankStep(ls, 0, 1);
    NonblankStep(ls, 1, 2);
    NonblankStep(ls, 2, 2);
  }

  /** "a", "", "b" in number-nonblank mode print as 1, a blank line, 2. */
  lemma {:induction false} NonblankSample()
    ensures CatLines(NumberNonblank, [Data("a"), Data(""), Data("b")]) ==
              Emitted(["     1\ta\n", "\n", "     2\tb\n"], Done)
  {
    SampleLines();
    NonblankThreeLines("a", "b");
    SmallNumbers();
    assert "     1" + "\t" + "a" + "\n" == "     1\ta\n";
    assert "     2" + "\t" + "b" + "\n" == "     2\tb\n";
  }

  /** Two names, the first missing and the second holding "a", "", "b", in
      number-nonblank mode: one warning for the first, the second numbered 1, blank, 2,
      and the run ends normally. */
  lemma {:induction false} MissingThenNonblank()
    ensures var fs := FileSystem([], map["b.txt" := Opened([Data("a"), Data(""), Data("b")])]);
            Cat(Config(["missing.txt", "b.txt"], false, true), fs) ==
              Trace(["     1\ta\n", "\n", "     2\tb\n"],
                    ["Failed to open missing.txt: " + NotFound + "\n"], Done)
  {
    var input := [Data("a"), Data(""), Data("b")];
    var fs := FileSystem([], map["b.txt" := Opened(input)]);
    var c := Config(["missing.txt", "b.txt"], false, true);
    var ws := ["     1\ta\n", "\n", "     2\tb\n"];
    var msg := "Failed to open missing.txt: " + NotFound + "\n";
    assert ModeOf(c) == NumberNonblank;
    var b0 := Block(c.files, fs, FileBlock(c), 0);
    assert b0 == Trace([], [msg], Done) by {
      assert c.files[0] == "missing.txt";
      assert |"missing.txt"| != |"b.txt"|;
      assert "missing.txt" !in fs.files;
      assert b0 == CatFile(NumberNonblank, "missing.txt", OpenFailed(NotFound));
      assert "Failed to open " + "missing.txt" + ": " == "Failed to open missing.txt: ";
    }
    var b1 := Block(c.files, fs, FileBlock(c), 1);
    assert b1 == Trace(ws, [], Done) by {
      assert c.files[1] == "b.txt";
      assert Open(fs, "b.txt") == Opened(input);
      NonblankSample();
      assert b1 == CatFile(NumberNonblank, "b.txt", Opened(input));
    }
    RunStep(c.files, fs, FileBlock(c), 0);
    RunStep(c.files, fs, FileBlock(c), 1);
  }
}
