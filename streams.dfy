/** The abstract input and output of the tools: what a reader hands over, how a file
    name is opened, what a run writes to standard output and standard error, and the
    loop over the named files that the head and cat tools share. */
module Streams {
  import opened Wrappers

  newtype byte = x: int | 0 <= x < 256

  /** One call to a line reader: a line, or an I/O error. A reader asked for more
      lines than its sequence holds is at end of input. For head, whose `read_line`
      keeps the newline, `Data("")` is a call that read zero bytes, that is, end of
      input; for cat, whose `lines()` strips the newline, it is an empty line. */
  datatype Read = Data(text: string) | Error(message: string)

  /** A byte reader: its content, the most bytes one `read` call hands over, and the
      error that call fails with, if it fails. */
  datatype ByteStream = ByteStream(data: seq<byte>, burst: nat, failure: Option<string>)

  /** What opening a name gives: the open error's message, or a reader over `C`. */
  datatype Source<C> = OpenFailed(reason: string) | Opened(content: C)

  /** Standard input and the files a run can open, by name; opening a name that is not
      in the table fails as a missing file does. */
  datatype FileSystem<C> = FileSystem(stdin: C, files: map<string, Source<C>>)

  /** The message of the I/O error for a missing file. */
  const NotFound: string := "No such file or directory (os error 2)"

  /** `open`: the name `-` is standard input; any other name is opened as a file. */
  function Open<C>(fs: FileSystem<C>, name: string): (r: Source<C>)
    ensures name == "-" ==> r == Opened(fs.stdin)
    ensures name != "-" && name in fs.files ==> r == fs.files[name]
    ensures name != "-" && name !in fs.files ==> r == OpenFailed(NotFound)
  {
    if name == "-" then Opened(fs.stdin)
    else if name in fs.files then fs.files[name]
    else OpenFailed(NotFound)
  }

  /** How a reader's processing or a whole run ended: normally, or with a read error
      that the `?` operator propagates. */
  datatype Status = Done | Aborted(message: string)

  /** What processing one reader prints, one element per print call, and how it ended. */
  datatype Emitted = Emitted(writes: seq<string>, status: Status)

  /** What a run writes to standard output and to standard error, one element per print
      call, and how it ended. */
  datatype Trace = Trace(out: seq<string>, err: seq<string>, status: Status)

  /** The text of a sequence of print calls. */
  function Concat(ws: seq<string>): string
  {
    if |ws| == 0 then "" else ws[0] + Concat(ws[1..])
  }

  lemma {:induction false} ConcatAppend(ws: seq<string>, w: string)
    ensures Concat(ws + [w]) == Concat(ws) + w
  {
    if |ws| == 0 {
      assert ws + [w] == [w];
    } else {
      assert (ws + [w])[1..] == ws[1..] + [w];
      ConcatAppend(ws[1..], w);
    }
  }

  lemma {:induction false} ConcatLengthAtLeast(ws: seq<string>, i: nat)
    requires i < |ws|
    ensures |Concat(ws)| >= |ws[i]|
  {
    if i > 0 {
      ConcatLengthAtLeast(ws[1..], i - 1);
    }
  }

  /** The position of the first `c` in `s`, or `|s|` when there is none. */
  function IndexOf(s: string, c: char): (i: nat)
    ensures i <= |s|
    ensures i < |s| ==> s[i] == c
    ensures forall j :: 0 <= j < i ==> s[j] != c
  {
    if |s| == 0 then 0 else if s[0] == c then 0 else 1 + IndexOf(s[1..], c)
  }

  /** Looking for `c` past a stretch without it. */
  lemma {:induction false} IndexOfAfter(p: string, q: string, c: char)
    requires forall j :: 0 <= j < |p| ==> p[j] != c
    ensures IndexOf(p + q, c) == |p| + IndexOf(q, c)
  {
    if |p| > 0 {
      assert (p + q)[1..] == p[1..] + q;
      IndexOfAfter(p[1..], q, c);
    } else {
      assert p + q == q;
    }
  }

  /** The first `k` files of a run, in order: each is opened and handed with its index
      to `block`, which says what processing it writes; the first file whose processing
      aborts ends the run, and the files after it are not opened. */
  function ProcessFiles<C>(files: seq<string>, fs: FileSystem<C>,
                           block: (nat, string, Source<C>) -> Trace, k: nat): Trace
    requires k <= |files|
  {
    if k == 0 then Trace([], [], Done)
    else
      var t := ProcessFiles(files, fs, block, k - 1);
      if t.status.Aborted? then t
      else
        var b := block(k - 1, files[k - 1], Open(fs, files[k - 1]));
        Trace(t.out + b.out, t.err + b.err, b.status)
  }

  /** What file `i` of a run writes when it is reached. */
  function Block<C>(files: seq<string>, fs: FileSystem<C>,
                    block: (nat, string, Source<C>) -> Trace, i: nat): Trace
    requires i < |files|
  {
    block(i, files[i], Open(fs, files[i]))
  }

  /** One more file of a run that has not aborted. */
  lemma {:induction false} RunStep<C>(files: seq<string>, fs: FileSystem<C>,
                   block: (nat, string, Source<C>) -> Trace, k: nat)
    requires k < |files|
    requires ProcessFiles(files, fs, block, k).status.Done?
    ensures var t := ProcessFiles(files, fs, block, k);
            var b := Block(files, fs, block, k);
            ProcessFiles(files, fs, block, k + 1) == Trace(t.out + b.out, t.err + b.err, b.status)
  {
  }

  /** Once a run has aborted, nothing after it is opened or written. */
  lemma {:induction false} AbortIsFinal<C>(files: seq<string>, fs: FileSystem<C>,
                                          block: (nat, string, Source<C>) -> Trace, k: nat, j: nat)
    requires k <= j <= |files|
    requires ProcessFiles(files, fs, block, k).status.Aborted?
    ensures ProcessFiles(files, fs, block, j) == ProcessFiles(files, fs, block, k)
  {
    if j > k {
      AbortIsFinal(files, fs, block, k, j - 1);
    }
  }

  /** A run only ever appends: what the first `k` files wrote is where a longer run starts. */
  lemma {:induction false} OutputGrows<C>(files: seq<string>, fs: FileSystem<C>,
                                         block: (nat, string, Source<C>) -> Trace, k: nat, j: nat)
    requires k <= j <= |files|
    ensures ProcessFiles(files, fs, block, k).out <= ProcessFiles(files, fs, block, j).out
    ensures ProcessFiles(files, fs, block, k).err <= ProcessFiles(files, fs, block, j).err
  {
    if j > k {
      OutputGrows(files, fs, block, k, j - 1);
    }
  }

  /** A file that is reached has its own block written right after everything the files
      before it wrote: what it writes depends on nothing that happened to them. */
  lemma {:induction false} BlockFollowsEarlierFiles<C>(files: seq<string>, fs: FileSystem<C>,
                                                      block: (nat, string, Source<C>) -> Trace, i: nat)
    requires i < |files|
    requires ProcessFiles(files, fs, block, i).status.Done?
    ensures var before := ProcessFiles(files, fs, block, i).out;
            var all := ProcessFiles(files, fs, block, |files|).out;
            before + Block(files, fs, block, i).out <= all
  {
    OutputGrows(files, fs, block, i + 1, |files|);
  }

  function Outs(ts: seq<Trace>): seq<string>
  {
    if |ts| == 0 then [] else Outs(ts[..|ts| - 1]) + ts[|ts| - 1].out
  }

  function Errs(ts: seq<Trace>): seq<string>
  {
    if |ts| == 0 then [] else Errs(ts[..|ts| - 1]) + ts[|ts| - 1].err
  }

  /** The blocks of the first `k` files. */
  function Blocks<C>(files: seq<string>, fs: FileSystem<C>,
                     block: (nat, string, Source<C>) -> Trace, k: nat): (bs: seq<Trace>)
    requires k <= |files|
    ensures |bs| == k
  {
    seq(k, i requires 0 <= i < k => Block(files, fs, block, i))
  }

  /** A run in which no file's processing hits a read error processes every file, whether
      it opened or not, and writes all the blocks in order: an open failure only adds its
      own message to standard error. */
  lemma {:induction false} NoReadErrorWritesEveryBlock<C>(files: seq<string>, fs: FileSystem<C>,
                                                         block: (nat, string, Source<C>) -> Trace, k: nat)
    requires k <= |files|
    requires forall i :: 0 <= i < k ==> Block(files, fs, block, i).status.Done?
    ensures var bs := Blocks(files, fs, block, k);
            ProcessFiles(files, fs, block, k) == Trace(Outs(bs), Errs(bs), Done)
  {
    if k > 0 {
      NoReadErrorWritesEveryBlock(files, fs, block, k - 1);
      var bs := Blocks(files, fs, block, k);
      assert bs[..k - 1] == Blocks(files, fs, block, k - 1);
    }
  }

  /** Two runs over the same files whose blocks agree write the same. */
  lemma {:induction false} SameBlocksSameRun<C>(files: seq<string>, fs: FileSystem<C>,
                                               b1: (nat, string, Source<C>) -> Trace,
                                               b2: (nat, string, Source<C>) -> Trace, k: nat)
    requires k <= |files|
    requires forall i :: 0 <= i < k ==> Block(files, fs, b1, i) == Block(files, fs, b2, i)
    ensures ProcessFiles(files, fs, b1, k) == ProcessFiles(files, fs, b2, k)
  {
    if k > 0 {
      SameBlocksSameRun(files, fs, b1, b2, k - 1);
      assert Block(files, fs, b1, k - 1) == Block(files, fs, b2, k - 1);
    }
  }
}
