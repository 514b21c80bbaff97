/** The head tool: of every named source it prints the first lines or the first bytes,
    under a `==> name <==` header when there is more than one source. */
module Headr {
  import opened Wrappers
  import opened Streams
  import Decimal

  /** The parsed arguments: the names to read (`-` by default), the line count (10 by
      default) and the byte count, if one was given. `GetArgs` only makes positive
      counts; a byte count of 0, which it never produces, would make the model read and
      fail where Rust's `take(0)` returns 0 bytes without reading. */
  datatype Config = Config(files: seq<string>, lines: nat, bytes: Option<nat>)

  /** What a file opened by head can be read as: the results of successive `read_line`
      calls, and a byte reader. */
  datatype Input = Input(lines: seq<Read>, bytes: ByteStream)

  /** `parse_positive_int`: a count is accepted exactly when it parses as a `usize`
      greater than zero; a rejected count is returned as the error. */
  function ParsePositiveInt(value: string): (r: Result<nat>)
    ensures r.Ok? <==> Decimal.ParseUsize(value).Some? && Decimal.ParseUsize(value).value > 0
    ensures r.Ok? ==> Decimal.ParseUsize(value) == Some(r.value)
    ensures r.Err? ==> r.error == value
  {
    match Decimal.ParseUsize(value)
    case Some(n) => if n > 0 then Ok(n) else Err(value)
    case None => Err(value)
  }

  /** The counts of `get_args`: the line count is checked first, then the byte count,
      if there is one; a rejected count names itself in the error. */
  function GetArgs(files: seq<string>, lines: string, bytes: Option<string>): (r: Result<Config>)
    ensures ParsePositiveInt(lines).Err? ==> r == Err("illegal line count -- " + lines)
    ensures ParsePositiveInt(lines).Ok? && bytes.Some? && ParsePositiveInt(bytes.value).Err? ==>
              r == Err("illegal byte count -- " + bytes.value)
    ensures r.Ok? <==> ParsePositiveInt(lines).Ok? && (bytes.Some? ==> ParsePositiveInt(bytes.value).Ok?)
    ensures r.Ok? ==> r.value.files == files && 0 < r.value.lines &&
                      Decimal.ParseUsize(lines) == Some(r.value.lines)
    ensures r.Ok? ==> (r.value.bytes.None? <==> bytes.None?)
    ensures r.Ok? && bytes.Some? ==> 0 < r.value.bytes.value &&
                                     Decimal.ParseUsize(bytes.value) == r.value.bytes
  {
    match ParsePositiveInt(lines)
    case Err(e) => Err("illegal line count -- " + e)
    case Ok(n) =>
      match bytes
      case None => Ok(Config(files, n, None))
      case Some(b) =>
        match ParsePositiveInt(b)
        case Err(e) => Err("illegal byte count -- " + e)
        case Ok(k) => Ok(Config(files, n, Some(k)))
  }

  /** How many reads, from the first, hand over a non-empty line; the read after them
      is at end of input (zero bytes, or no read left) or fails. */
  function Delivered(input: seq<Read>): (m: nat)
    ensures m <= |input|
    ensures forall k :: 0 <= k < m ==> input[k].Data? && input[k].text != ""
    ensures m < |input| ==> input[m].Error? || input[m].text == ""
  {
    if |input| == 0 || input[0].Error? || input[0].text == "" then 0
    else 1 + Delivered(input[1..])
  }

  /** The `line` buffer after `k` calls of `read_line`: every call appends to it, and
      nothing clears it. */
  function Accumulated(input: seq<Read>, k: nat): string
    requires k <= Delivered(input)
  {
    if k == 0 then "" else Accumulated(input, k - 1) + input[k - 1].text
  }

  /** `process_lines` as written: at most `n` reads; each read that hands over a line is
      followed by a print of the whole buffer; end of input stops quietly, a read error
      stops with that error. */
  function HeadLines(input: seq<Read>, n: nat): (e: Emitted)
    ensures |e.writes| == Min(n, Delivered(input))
    ensures e.status.Aborted? ==> |e.writes| < n && |e.writes| < |input| && input[|e.writes|] == Error(e.status.message)
    ensures e.status.Done? ==> |e.writes| == n || |e.writes| == |input| || input[|e.writes|] == Data("")
  {
    var m := Min(n, Delivered(input));
    Emitted(seq(m, k requires 0 <= k < m => Accumulated(input, k + 1)),
            if m < n && m < |input| && input[m].Error? then Aborted(input[m].message) else Done)
  }

  /** `process_lines`. */
  method ProcessLines(input: seq<Read>, n: nat) returns (e: Emitted)
    ensures e == HeadLines(input, n)
  {
    var line := "";
    var writes: seq<string> := [];
    var i := 0;
    while i < n
      invariant i <= n && i <= Delivered(input)
      invariant line == Accumulated(input, i)
      invariant |writes| == i
      invariant forall k {:trigger writes[k]} :: 0 <= k < i ==> writes[k] == Accumulated(input, k + 1)
    {
      if i == |input| {
        // `read_line` returns 0 at end of input
        return Emitted(writes, Done);
      }
      match input[i] {
        case Error(msg) =>
          return Emitted(writes, Aborted(msg));
        case Data(text) =>
          line := line + text;
          if |text| == 0 {
            return Emitted(writes, Done);
          }
          writes := writes + [line];
      }
      i := i + 1;
    }
    return Emitted(writes, Done);
  }

  /** How many bytes the single `read` of byte mode hands over: no more than the count,
      than one read delivers, or than the input holds. */
  function Taken(s: ByteStream, n: nat): (k: nat)
    ensures k <= n && k <= |s.data|
    ensures n <= s.burst ==> k == Min(n, |s.data|)
  {
    Min(n, Min(s.burst, |s.data|))
  }

  /** `process_bytes`: one read into a buffer of `n` bytes, whose filled part is printed
      through lossy UTF-8 decoding; a failing read prints nothing. */
  function HeadBytes(s: ByteStream, n: nat, lossy: seq<byte> -> string): Emitted
  {
    match s.failure
    case Some(msg) => Emitted([], Aborted(msg))
    case None => Emitted([lossy(s.data[..Taken(s, n)])], Done)
  }

  /** `read` of a reader limited by `take`: fills the front of the buffer. */
  method ReadInto(s: ByteStream, buffer: array<byte>) returns (r: Result<nat>)
    modifies buffer
    ensures r.Err? <==> s.failure.Some?
    ensures r.Err? ==> r.error == s.failure.value
    ensures r.Ok? ==> r.value == Taken(s, buffer.Length) && buffer[..r.value] == s.data[..r.value]
  {
    if s.failure.Some? {
      return Err(s.failure.value);
    }
    var k := Taken(s, buffer.Length);
    for i := 0 to k
      invariant forall j :: 0 <= j < i ==> buffer[j] == s.data[j]
    {
      buffer[i] := s.data[i];
    }
    return Ok(k);
  }

  /** `process_bytes`. */
  method ProcessBytes(s: ByteStream, n: nat, lossy: seq<byte> -> string) returns (e: Emitted)
    ensures e == HeadBytes(s, n, lossy)
  {
    var buffer := new byte[n](_ => 0);
    var r := ReadInto(s, buffer);
    match r {
      case Err(msg) =>
        return Emitted([], Aborted(msg));
      case Ok(k) =>
        return Emitted([lossy(buffer[..k])], Done);
    }
  }

  /** The header of the file at index `idx` of the list. */
  function Header(idx: nat, name: string): string
  {
    (if idx > 0 then "\n" else "") + "==> " + name + " <==" + "\n"
  }

  /** What the file at index `idx` contributes to a run: an open failure is reported on
      standard error; an opened file gets its header when the list has more than one
      name, then is processed in byte mode when a byte count was given and in line mode
      otherwise. */
  function HeadFile(c: Config, lossy: seq<byte> -> string, idx: nat, name: string, src: Source<Input>): Trace
  {
    match src
    case OpenFailed(reason) => Trace([], [name + ": " + reason + "\n"], Done)
    case Opened(input) =>
      var header := if |c.files| > 1 then [Header(idx, name)] else [];
      var e := match c.bytes
        case Some(b) => HeadBytes(input.bytes, b, lossy)
        case None => HeadLines(input.lines, c.lines);
      Trace(header + e.writes, [], e.status)
  }

  function FileBlock(c: Config, lossy: seq<byte> -> string): (nat, string, Source<Input>) -> Trace
  {
    (idx: nat, name: string, src: Source<Input>) => HeadFile(c, lossy, idx, name, src)
  }

  /** The block of file `idx` of a run is what `HeadFile` makes of opening it. */
  lemma {:induction false} BlockIsHeadFile(c: Config, fs: FileSystem<Input>, lossy: seq<byte> -> string, idx: nat)
    requires idx < |c.files|
    ensures Block(c.files, fs, FileBlock(c, lossy), idx)
            == HeadFile(c, lossy, idx, c.files[idx], Open(fs, c.files[idx]))
  {
  }

  /** A file of a run that fails to open adds its message to standard error. */
  lemma {:induction false} FailedOpenStep(c: Config, fs: FileSystem<Input>, lossy: seq<byte> -> string, idx: nat)
    requires idx < |c.files| && Open(fs, c.files[idx]).OpenFailed?
    requires ProcessFiles(c.files, fs, FileBlock(c, lossy), idx).status.Done?
    ensures var t := ProcessFiles(c.files, fs, FileBlock(c, lossy), idx);
            ProcessFiles(c.files, fs, FileBlock(c, lossy), idx + 1) ==
              Trace(t.out, t.err + [c.files[idx] + ": " + Open(fs, c.files[idx]).reason + "\n"], Done)
  {
    BlockIsHeadFile(c, fs, lossy, idx);
    RunStep(c.files, fs, FileBlock(c, lossy), idx);
  }

  /** A file of a run that opens adds its header, if there is one, and what its
      processing `e` prints; the run goes on as that processing ended. */
  lemma {:induction false} OpenedFileStep(c: Config, fs: FileSystem<Input>, lossy: seq<byte> -> string, idx: nat,
                                          input: Input, e: Emitted)
    requires idx < |c.files| && Open(fs, c.files[idx]) == Opened(input)
    requires ProcessFiles(c.files, fs, FileBlock(c, lossy), idx).status.Done?
    requires e == if c.bytes.Some? then HeadBytes(input.bytes, c.bytes.value, lossy)
                  else HeadLines(input.lines, c.lines)
    ensures var t := ProcessFiles(c.files, fs, FileBlock(c, lossy), idx);
            var header := if |c.files| > 1 then [Header(idx, c.files[idx])] else [];
            ProcessFiles(c.files, fs, FileBlock(c, lossy), idx + 1) ==
              Trace(t.out + (header + e.writes), t.err, e.status)
  {
    BlockIsHeadFile(c, fs, lossy, idx);
    RunStep(c.files, fs, FileBlock(c, lossy), idx);
  }

  /** What a whole run writes. */
  function Head(c: Config, fs: FileSystem<Input>, lossy: seq<byte> -> string): Trace
  {
    ProcessFiles(c.files, fs, FileBlock(c, lossy), |c.files|)
  }

  /** `run`. */
  method Run(c: Config, fs: FileSystem<Input>, lossy: seq<byte> -> string) returns (t: Trace)
    ensures t == Head(c, fs, lossy)
  {
    var out: seq<string> := [];
    var err: seq<string> := [];
    for idx := 0 to |c.files|
      invariant ProcessFiles(c.files, fs, FileBlock(c, lossy), idx) == Trace(out, err, Done)
    {
      var filename := c.files[idx];
      match Open(fs, filename) {
        case OpenFailed(reason) =>
          FailedOpenStep(c, fs, lossy, idx);
          err := err + [filename + ": " + reason + "\n"];
        case Opened(input) =>
          var header: seq<string> := [];
          if |c.files| > 1 {
            header := [Header(idx, filename)];
          }
          var e: Emitted;
          if c.bytes.Some? {
            e := ProcessBytes(input.bytes, c.bytes.value, lossy);
          } else {
            e := ProcessLines(input.lines, c.lines);
          }
          OpenedFileStep(c, fs, lossy, idx, input, e);
          out := out + (header + e.writes);
          if e.status.Aborted? {
            AbortIsFinal(c.files, fs, FileBlock(c, lossy), idx + 1, |c.files|);
            return Trace(out, err, e.status);
          }
      }
    }
    return Trace(out, err, Done);
  }
}

/** What the head tool's output holds, stated over the model above. */
module HeadrProperties {
  import opened Wrappers
  import opened Streams
  import Decimal
  import opened Headr

  /** The text of the first `k` lines read, each as `read_line` handed it over. */
  function FirstLines(input: seq<Read>, k: nat): string
    requires k <= Delivered(input)
  {
    Concat(seq(k, j requires 0 <= j < k => input[j].text))
  }

  lemma {:induction false} AccumulatedIsFirstLines(input: seq<Read>, k: nat)
    requires k <= Delivered(input)
    ensures Accumulated(input, k) == FirstLines(input, k)
  {
    if k > 0 {
      AccumulatedIsFirstLines(input, k - 1);
      var front := seq(k - 1, j requires 0 <= j < k - 1 => input[j].text);
      assert seq(k, j requires 0 <= j < k => input[j].text) == front + [input[k - 1].text];
      ConcatAppend(front, input[k - 1].text);
    }
  }

  /** Because the buffer is never cleared, print `k` (from 0) emits lines 1 to k + 1
      together, not line k + 1 alone. */
  lemma {:induction false} PrintsAccumulate(input: seq<Read>, n: nat, k: nat)
    requires k < |HeadLines(input, n).writes|
    ensures k + 1 <= Delivered(input)
    ensures HeadLines(input, n).writes[k] == FirstLines(input, k + 1)
  {
    AccumulatedIsFirstLines(input, k + 1);
  }

  /** What a head is meant to print in line mode: the first `n` lines, or all of them when
      there are fewer. */
  function IntendedHead(input: seq<Read>, n: nat): string
  {
    FirstLines(input, Min(n, Delivered(input)))
  }

  /** The last print alone is the intended output. */
  lemma {:induction false} LastPrintIsIntendedHead(input: seq<Read>, n: nat)
    requires 0 < |HeadLines(input, n).writes|
    ensures var ws := HeadLines(input, n).writes;
            ws[|ws| - 1] == IntendedHead(input, n)
  {
    PrintsAccumulate(input, n, |HeadLines(input, n).writes| - 1);
  }

  /** The whole line-mode output is the intended one exactly when at most one line is
      printed; from two lines on, the earlier lines are printed again. */
  lemma {:induction false} OutputIsIntendedHeadIff(input: seq<Read>, n: nat)
    ensures Concat(HeadLines(input, n).writes) == IntendedHead(input, n) <==>
            Min(n, Delivered(input)) <= 1
  {
    var ws := HeadLines(input, n).writes;
    var m := |ws|;
    if m > 0 {
      LastPrintIsIntendedHead(input, n);
      if m == 1 {
        assert Concat(ws) == ws[0];
      } else {
        assert ws[0] == Accumulated(input, 1) == input[0].text;
        ConcatLengthAtLeast(ws[1..], m - 2);
        assert |Concat(ws)| > |ws[m - 1]|;
      }
    }
  }

  /** `-n 2` over "a", "b", "c" prints "a" and then "a" and "b" again. */
  lemma {:induction false} RepeatedLines()
    ensures HeadLines([Data("a\n"), Data("b\n"), Data("c\n")], 2).writes == ["a\n", "a\nb\n"]
    ensures Concat(HeadLines([Data("a\n"), Data("b\n"), Data("c\n")], 2).writes) == "a\na\nb\n"
  {
    var input := [Data("a\n"), Data("b\n"), Data("c\n")];
    assert Delivered(input[3..]) == 0;
    assert Delivered(input) == 3;
    var ws := HeadLines(input, 2).writes;
    assert ws[0] == "a\n";
    assert ws[1] == "a\nb\n";
    assert ws == ["a\n", "a\nb\n"];
    assert ws[1..] == ["a\nb\n"] && ws[1..][1..] == [];
    assert Concat(ws[1..]) == "a\nb\n";
    assert Concat(ws) == "a\n" + "a\nb\n";
  }

  /** Byte mode prints one decoded prefix of the input no longer than the count, or
      nothing when the read fails; when one read can deliver the whole count, the prefix
      is the first min(count, length) bytes. */
  lemma {:induction false} HeadBytesPrintsAPrefix(s: ByteStream, n: nat, lossy: seq<byte> -> string)
    ensures HeadBytes(s, n, lossy).status.Aborted? <==> s.failure.Some?
    ensures s.failure.Some? ==> HeadBytes(s, n, lossy).writes == []
    ensures s.failure.None? ==> exists k :: 0 <= k <= n && k <= |s.data| &&
                                  HeadBytes(s, n, lossy).writes == [lossy(s.data[..k])]
    ensures s.failure.None? && n <= s.burst ==>
              HeadBytes(s, n, lossy).writes == [lossy(s.data[..Min(n, |s.data|)])]
  {
  }

  /** With more than one name, every file the run reaches and opens starts with its
      header, right after what the files before it wrote; the header has a leading
      newline exactly when the file is not first in the list, whether or not the files
      before it opened. */
  lemma {:induction false} HeaderPrecedesEveryOpenedFile(c: Config, fs: FileSystem<Input>, lossy: seq<byte> -> string, i: nat)
    requires i < |c.files| && 1 < |c.files|
    requires ProcessFiles(c.files, fs, FileBlock(c, lossy), i).status.Done?
    requires Open(fs, c.files[i]).Opened?
    ensures var at := |ProcessFiles(c.files, fs, FileBlock(c, lossy), i).out|;
            at < |Head(c, fs, lossy).out| && Head(c, fs, lossy).out[at] == Header(i, c.files[i])
    ensures Header(i, c.files[i])[0] == '\n' <==> 0 < i
  {
    BlockFollowsEarlierFiles(c.files, fs, FileBlock(c, lossy), i);
    var before := ProcessFiles(c.files, fs, FileBlock(c, lossy), i).out;
    var b := Block(c.files, fs, FileBlock(c, lossy), i).out;
    assert b[0] == Header(i, c.files[i]);
    assert (before + b)[|before|] == b[0];
  }

  /** With a single name there is no header: the output is that file's alone. */
  lemma {:induction false} NoHeaderForOneFile(c: Config, fs: FileSystem<Input>, lossy: seq<byte> -> string)
    requires |c.files| == 1
    ensures Head(c, fs, lossy).out ==
              match Open(fs, c.files[0])
              case OpenFailed(_) => []
              case Opened(input) =>
                if c.bytes.Some? then HeadBytes(input.bytes, c.bytes.value, lossy).writes
                else HeadLines(input.lines, c.lines).writes
  {
    RunStep(c.files, fs, FileBlock(c, lossy), 0);
  }

  /** When a byte count is given, the line count makes no difference to anything. */
  lemma {:induction false} ByteModeIgnoresLineCount(c: Config, fs: FileSystem<Input>, lossy: seq<byte> -> string, lines: nat)
    requires c.bytes.Some?
    ensures Head(c, fs, lossy) == Head(c.(lines := lines), fs, lossy)
  {
    var c' := c.(lines := lines);
    forall i | 0 <= i < |c.files|
      ensures Block(c.files, fs, FileBlock(c, lossy), i) == Block(c.files, fs, FileBlock(c', lossy), i)
    {
    }
    SameBlocksSameRun(c.files, fs, FileBlock(c, lossy), FileBlock(c', lossy), |c.files|);
  }

  /** A read error ends the run where it happens: what the run writes is what it had
      written up to that point, and no later file is opened. */
  lemma {:induction false} ReadErrorEndsRun(c: Config, fs: FileSystem<Input>, lossy: seq<byte> -> string, i: nat)
    requires i < |c.files|
    requires ProcessFiles(c.files, fs, FileBlock(c, lossy), i).status.Done?
    requires Block(c.files, fs, FileBlock(c, lossy), i).status.Aborted?
    ensures Head(c, fs, lossy) == ProcessFiles(c.files, fs, FileBlock(c, lossy), i + 1)
    ensures Head(c, fs, lossy).status == Block(c.files, fs, FileBlock(c, lossy), i).status
  {
    AbortIsFinal(c.files, fs, FileBlock(c, lossy), i + 1, |c.files|);
  }

  /** One non-empty line and a positive count: that line is printed once. */
  lemma {:induction false} OneLineHead(x: string, n: nat)
    requires x != "" && 0 < n
    ensures HeadLines([Data(x)], n) == Emitted([x], Done)
  {
    var input := [Data(x)];
    assert Delivered(input[1..]) == 0;
    assert Delivered(input) == 1;
    assert Accumulated(input, 1) == "" + x == x;
    var ws := HeadLines(input, n).writes;
    assert |ws| == 1 && ws[0] == x;
    assert ws == [x];
  }

  /** Two names in line mode, the first failing to open: its message goes to standard
      error, and the second file is printed under the header for index 1. */
  lemma {:induction false} SecondFileAfterFailedOpen(c: Config, fs: FileSystem<Input>, lossy: seq<byte> -> string, input: Input)
    requires |c.files| == 2 && c.bytes.None?
    requires Open(fs, c.files[0]).OpenFailed? && Open(fs, c.files[1]) == Opened(input)
    ensures var e := HeadLines(input.lines, c.lines);
            Head(c, fs, lossy) ==
              Trace([Header(1, c.files[1])] + e.writes,
                    [c.files[0] + ": " + Open(fs, c.files[0]).reason + "\n"], e.status)
  {
    BlockIsHeadFile(c, fs, lossy, 0);
    BlockIsHeadFile(c, fs, lossy, 1);
    RunStep(c.files, fs, FileBlock(c, lossy), 0);
    RunStep(c.files, fs, FileBlock(c, lossy), 1);
  }

  /** A missing first file is reported, and the second file's header still begins with a
      blank line, because it is the second name in the list. */
  lemma {:induction false} HeaderFollowsIndexNotOpenFiles(lossy: seq<byte> -> string)
    ensures var input := Input([Data("x\n")], ByteStream([], 0, None));
            var fs := FileSystem(input, map["a" := Opened(input)]);
            Head(Config(["gone", "a"], 10, None), fs, lossy) ==
              Trace(["\n==> a <==\n", "x\n"], ["gone: " + NotFound + "\n"], Done)
  {
    var input := Input([Data("x\n")], ByteStream([], 0, None));
    var fs := FileSystem(input, map["a" := Opened(input)]);
    var c := Config(["gone", "a"], 10, None);
    assert Open(fs, "gone") == OpenFailed(NotFound) by {
      assert |"gone"| != |"a"|;
    }
    SecondFileAfterFailedOpen(c, fs, lossy, input);
    OneLineHead("x\n", 10);
    assert Header(1, "a") == "\n==> a <==\n";
    assert "gone" + ": " + NotFound + "\n" == "gone: " + NotFound + "\n";
  }

  /** Every count `Format` can write is read back by `parse_positive_int`. */
  lemma {:induction false} PositiveCountRoundTrip(n: nat)
    requires 0 < n <= Decimal.USIZE_MAX
    ensures ParsePositiveInt(Decimal.Format(n)) == Ok(n)
  {
    Decimal.FormatParses(n);
  }

  /** "3" is accepted as 3; "hello" and "0" are rejected and returned as they are. */
  lemma {:induction false} ParsePositiveIntExamples()
    ensures ParsePositiveInt("3") == Ok(3)
    ensures ParsePositiveInt("hello") == Err("hello")
    ensures ParsePositiveInt("0") == Err("0")
  {
    assert "3"[0..] == "3";
    assert "0"[0..] == "0";
    assert "hello"[0..] == "hello";
    assert !Decimal.IsDigit("hello"[0]);
  }

  /** `--lines 0`, `--lines -3` and `--lines abc` are all rejected before anything is
      read, with the count in the message; so is `--bytes 0`. */
  lemma {:induction false} IllegalCounts(files: seq<string>)
    ensures GetArgs(files, "0", None) == Err("illegal line count -- 0")
    ensures GetArgs(files, "-3", None) == Err("illegal line count -- -3")
    ensures GetArgs(files, "abc", None) == Err("illegal line count -- abc")
    ensures GetArgs(files, "10", Some("0")) == Err("illegal byte count -- 0")
    ensures GetArgs(files, "10", None) == Ok(Config(files, 10, None))
  {
    assert "0"[0..] == "0";
    assert "-3"[0..] == "-3" && !Decimal.IsDigit("-3"[0]);
    assert "abc"[0..] == "abc" && !Decimal.IsDigit("abc"[0]);
    assert "10"[0..] == "10" && "10"[..1] == "1";
  }
}
