# A model of three Unix-style text tools: head, cat and echo

This project models the core of three small command-line tools written in Rust, and proves
properties of the model:

- **head** (`headr`): for every named source (`-` is standard input) it prints a
  `==> name <==` header when more than one name is given. Then it prints the first bytes
  of the source (`-c`) or its lines (`-n`, 10 by default). The counts are parsed by
  `parse_positive_int`, and a rejected count becomes an `illegal line count -- VALUE` or
  `illegal byte count -- VALUE` error.
- **cat** (`catr`): every source is copied line by line. There are three modes: plain,
  every line numbered (`{:>6}\t`), and only non-empty lines numbered. The counter is
  restarted for every source.
- **echo** (`echor`): the text arguments joined by single spaces, with a newline unless
  `-n` is given. At least one argument is required.

Output is modelled as the sequence of strings that the print calls write. Standard output
and standard error are kept apart. The loop over the named files is shared by head and cat
(`Streams.ProcessFiles`):

- each name is opened;
- an open failure adds one message to standard error and the run goes on;
- a read error (the `?` operator) ends the run, and later files are not opened.

Each processing function of the source is an imperative method. Head's
`process_lines`, cat's three print functions and both tools' `run` are loops. Head's
`process_bytes` has no loop: it allocates an `array` buffer and makes one `read` call
(`Headr.ReadInto`, whose copying loop stands for `read` and whose contract says what that call delivers). Every other method is proved equal to a
specification function. The properties are lemmas about those functions.

**Head's line mode follows the code, not the intent.** `process_lines` creates its
`line` buffer once, before the loop. `read_line` appends to that buffer and nothing
clears it, so print `k` writes lines 1 to `k` again. For `-n 2` over "a", "b", "c" the
output is `a`, then `a` `b` (`HeadrProperties.RepeatedLines`). A head is meant to print
the first N lines. The model states that intent as `HeadrProperties.IntendedHead` and
proves which part of it holds:

- the last print alone is the intended head;
- the whole output equals the intended head exactly when at most one line is printed.

The rest of the model uses the behaviour as written.

## Model

The processing of one source and a whole run are given as specification functions,
and each method of the table is proved equal to one of them: `Headr.HeadLines` and
`Headr.HeadBytes` (with the header text `Headr.Header` and one file's part
`Headr.HeadFile`) specify head; `Catr.RenderLine`, `Catr.Render`, `Catr.CatLines` and
`Catr.CatFile` specify cat; `Streams.ProcessFiles` is the file loop shared by
`Headr.Run` and `Catr.Run` (headr/src/lib.rs:63-77, catr/src/lib.rs:52-62);
`Echor.Join` is the `join(" ")` of echor/src/main.rs:23. Their rows are those of the
methods and of the lemmas about them.

| member | source | states |
|---|---|---|
| Headr.ParsePositiveInt | headr/src/lib.rs:101-106 | accepted exactly when the text parses as a `usize` greater than 0, with that value; a rejected text is returned unchanged as the error |
| Headr.GetArgs | headr/src/lib.rs:51-59 | the line count is checked first and its rejection gives `illegal line count -- VALUE`; then the byte count, if present, and its rejection gives `illegal byte count -- VALUE`; an absent byte count stays absent; on success the files pass through and both counts are the parsed values |
| Headr.Delivered | headr/src/lib.rs:92-96 | the number of leading reads that hand over a non-empty line; the read after them is at end of input or fails |
| Headr.HeadLines | headr/src/lib.rs:90-99 | exactly min(N, M) prints, where M is the number of leading reads that hand over a line; a read error is reported only when it happens within the first N reads, and it is the error of the read after the last print; a normal end comes after N prints, at end of input, or at a zero-byte read |
| Headr.ProcessLines | headr/src/lib.rs:90-99 | the loop with the never-cleared buffer produces exactly `HeadLines`: print `k` is the buffer after `k` reads |
| Headr.Taken | headr/src/lib.rs:82-84 | the single `read` through `take(N)` hands over at most N bytes and no more than the input holds; when one read can deliver N bytes it hands over min(N, length) |
| Headr.ReadInto | headr/src/lib.rs:84 | a failing read returns its error; otherwise it fills the front of the buffer with the first `Taken` bytes of the input and returns their count |
| Headr.ProcessBytes | headr/src/lib.rs:81-88 | allocates an N-byte buffer, reads once, and produces exactly `HeadBytes`: the lossy decoding of the filled part, or nothing and the read error |
| Headr.Run | headr/src/lib.rs:62-79 | the loop over the files produces exactly `Head`: the header when there is more than one name, with a leading newline after index 0; byte mode when a byte count is given, line mode otherwise; an open failure is reported as `name: err` and skipped; a read error ends the run |
| HeadrProperties.AccumulatedIsFirstLines | headr/src/lib.rs:91-95 | the buffer after `k` reads is the first `k` lines one after another |
| HeadrProperties.PrintsAccumulate | headr/src/lib.rs:91-95 | print `k` (from 0) is lines 1 to k + 1 concatenated |
| HeadrProperties.LastPrintIsIntendedHead | headr/src/lib.rs:90-99 | the last print in line mode is the first min(N, M) lines |
| HeadrProperties.OutputIsIntendedHeadIff | headr/src/lib.rs:90-99 | the whole line-mode output equals the first min(N, M) lines exactly when min(N, M) <= 1 |
| HeadrProperties.RepeatedLines | headr/src/lib.rs:90-99 | `-n 2` over "a", "b", "c" prints "a\n" and then "a\nb\n" |
| HeadrProperties.HeadBytesPrintsAPrefix | headr/src/lib.rs:81-88 | byte mode aborts exactly when the read fails, and then prints nothing; otherwise it prints the decoding of a prefix of at most N bytes, which is min(N, length) bytes when one read can deliver them all |
| HeadrProperties.HeaderPrecedesEveryOpenedFile | headr/src/lib.rs:63-69 | with more than one name, every opened file the run reaches starts with its header, right after what the earlier files wrote; the header starts with a newline exactly when the file's list index is above 0 |
| HeadrProperties.NoHeaderForOneFile | headr/src/lib.rs:67-74 | with a single name the output is that file's processing alone, without a header |
| HeadrProperties.ByteModeIgnoresLineCount | headr/src/lib.rs:70-74 | when a byte count is given, changing the line count changes nothing in the run |
| HeadrProperties.ReadErrorEndsRun | headr/src/lib.rs:71-73 | a read error ends the run with that error, and nothing after that file is opened or written |
| HeadrProperties.HeaderFollowsIndexNotOpenFiles | headr/src/lib.rs:63-68 | a missing first file is reported on standard error, and the second file's header still starts with a newline |
| HeadrProperties.PositiveCountRoundTrip | headr/src/lib.rs:101-106 | every positive `usize` written in decimal is accepted as itself |
| HeadrProperties.ParsePositiveIntExamples | headr/src/lib.rs:115-129 | "3" is accepted as 3; "hello" and "0" are rejected |
| HeadrProperties.IllegalCounts | headr/src/lib.rs:51-59 | `-n 0`, `-n -3` and `-n abc` give the line-count error; `-c 0` gives the byte-count error; the default `-n 10` is accepted |
| Catr.ModeOf | catr/src/lib.rs:55-59 | whenever the two flags are not both set, number-all is chosen exactly when `-n` is set and number-nonblank exactly when `-b` is set, so `(false, false)` is plain; both flags together also select plain |
| Catr.Lines | catr/src/lib.rs:74 | the lines a `lines()` iterator yields are the reads before the first error, in order; when one remains, it is an error |
| Catr.Ending | catr/src/lib.rs:75 | reading to the end aborts exactly when some read fails, and then with the first error |
| Catr.PrintLineByLine | catr/src/lib.rs:73-78 | produces exactly the plain rendering of the lines, ending with the first read error |
| Catr.PrintLineByLineWithNumber | catr/src/lib.rs:80-85 | produces exactly the number-all rendering: line `k` (from 1) as `{:>6}` of `k`, a tab and the line |
| Catr.PrintLineByLineWithNumberSkipEmpty | catr/src/lib.rs:87-99 | the loop with its conditional counter produces exactly the number-nonblank rendering |
| Catr.PrintFile | catr/src/lib.rs:55-59 | the print function chosen from the two flags produces the rendering of `ModeOf` |
| Catr.Run | catr/src/lib.rs:51-64 | the loop over the files produces exactly `Cat`: an open failure is reported as `Failed to open NAME: err` and skipped; a read error ends the run |
| CatrProperties.NumberField6 | catr/src/lib.rs:82 | a `{:>6}` number field holds no tab, and trimming its leading spaces leaves the decimal number |
| CatrProperties.NumberedLineReadsBack | catr/src/lib.rs:82-94 | a numbered line reads back as its number, then the line itself |
| CatrProperties.BlankLineHasNoNumber | catr/src/lib.rs:91-92 | a blank line in number-nonblank mode has no number and no tab |
| CatrProperties.NumberAllNumbersEveryLine | catr/src/lib.rs:80-85 | in number-all mode output line `k` carries the number `k + 1`, followed by input line `k` unchanged |
| CatrProperties.OneToCounts | catr/src/lib.rs:88-96 | the list 1, 2, ..., c holds `i + 1` at position `i` |
| CatrProperties.NonblankLineNumber | catr/src/lib.rs:88-96 | in number-nonblank mode an empty line carries no number, and a non-empty line carries 1 + the number of non-empty lines before it |
| CatrProperties.CountedNumbers | catr/src/lib.rs:88-96 | numbers given line by line in this way read, in order, as 1, 2, ... up to the count of non-empty lines |
| CatrProperties.NonblankLineShape | catr/src/lib.rs:91-95 | an empty line is printed as a bare newline; a non-empty line, even one of spaces only, carries the count of non-empty lines up to and including it, then a tab and the line |
| CatrProperties.NonblankLinesShape | catr/src/lib.rs:91-95 | for every line at once: an empty line is a bare newline, and a non-empty line carries the count of non-empty lines up to and including it, then a tab and the line |
| CatrProperties.NonblankNumbersAreConsecutive | catr/src/lib.rs:88-96 | the numbers printed in number-nonblank mode are exactly 1, 2, ..., up to the number of non-empty lines, with no gap and no repeat |
| CatrProperties.SplitFirstLine | catr/src/lib.rs:75 | cutting text that begins with a line and its newline takes that line off first |
| CatrProperties.PlainReproducesLines | catr/src/lib.rs:73-78 | plain mode reproduces its input: cutting the printed text at its newlines gives back the lines that were read, in order |
| CatrProperties.CatWithoutReadErrors | catr/src/lib.rs:51-64 | when no read fails, every file is processed: standard output holds the files' outputs in order, and standard error one message per file that failed to open |
| CatrProperties.FirstLineIsNumberOne | catr/src/lib.rs:80-96 | in both numbering modes a non-empty first line carries the number 1 |
| CatrProperties.NumberingRestartsPerFile | catr/src/lib.rs:52-96 | in a numbering mode, the first line of every file the run reaches is printed with the number 1 when it is not empty |
| CatrProperties.SmallNumbers | catr/src/lib.rs:82-94 | the fields of 1 and 2 are five spaces and then the digit |
| CatrProperties.SampleLines | catr/src/lib.rs:74 | the reads "a", "" and "b" are three lines |
| CatrProperties.NonblankThreeLines | catr/src/lib.rs:87-99 | a non-empty line, an empty line and a non-empty line are numbered 1, left bare, and numbered 2 |
| CatrProperties.NonblankSample | catr/src/lib.rs:87-99 | "a", "", "b" print as `     1\ta`, an empty line, and `     2\tb` |
| CatrProperties.MissingThenNonblank | catr/src/lib.rs:51-64 | a missing first file gives one message on standard error; the second file is still printed and numbered from 1 |
| Decimal.Format | catr/src/lib.rs:82 | the decimal text of `n` is non-empty, has only digits, has no leading zero unless `n` is 0, and reads back as `n` |
| Decimal.ParseUsize | headr/src/lib.rs:102 | an accepted text is an optional `+` and at least one digit, and its value fits in a 64-bit `usize`; conversely a text of digits within that range is accepted with its value |
| Decimal.ParseUsizeAccepts | headr/src/lib.rs:102 | every text of one or more digits whose value fits in a `usize` is accepted with that value, with or without a leading `+` |
| Decimal.ParseUsizeExamples | headr/src/lib.rs:102 | "007" is accepted as 7 and "+5" as 5 |
| Decimal.FormatParses | headr/src/lib.rs:102 | parsing the decimal text of any `usize` gives it back |
| Decimal.RightAlign | catr/src/lib.rs:82 | `{:>width}` pads on the left with spaces to the width, keeping the text at the end, and does not truncate a longer text |
| Decimal.TrimIsSuffix | catr/src/lib.rs:82 | trimming leading spaces leaves a suffix that does not start with a space, after removing only spaces |
| Decimal.TrimSpaces | catr/src/lib.rs:82 | trimming spaces put in front of a text that does not start with a space gives the text back |
| Decimal.TrimRightAlign | catr/src/lib.rs:82 | trimming a right-aligned field gives back what was aligned |
| Streams.AbortIsFinal | catr/src/lib.rs:56-58 | once a read error has aborted a run, nothing more is opened or written |
| Streams.OutputGrows | catr/src/lib.rs:52-62 | a run only appends to standard output and standard error |
| Streams.BlockFollowsEarlierFiles | headr/src/lib.rs:63-77 | a file that is reached writes its part right after what the earlier files wrote |
| Streams.NoReadErrorWritesEveryBlock | catr/src/lib.rs:52-62 | a run in which no processing fails writes every file's part in order, and the open failures only add their messages |
| Streams.SameBlocksSameRun | headr/src/lib.rs:63-77 | two runs over the same names whose files write the same are the same run |
| Echor.Echo | echor/src/main.rs:8-25 | a usage error exactly when no text is given, and its message contains "USAGE"; otherwise the joined text and, unless `-n` is given, a newline |
| EchorProperties.JoinPlacesTokens | echor/src/main.rs:23 | every token stands unchanged at its offset in the joined text, and a single space follows every token but the last |
| EchorProperties.JoinLength | echor/src/main.rs:23 | the joined text is as long as the tokens plus one space between each pair of neighbours: no leading or trailing space |
| EchorProperties.SplitJoin | echor/src/main.rs:23 | cutting the joined text at its spaces gives the tokens back, when no token holds a space |
| EchorProperties.FlagOnlyDropsNewline | echor/src/main.rs:24-25 | with `-n` the output is the joined text exactly, and without it the same text with one newline more |
| EchorProperties.HelloWorld | echor/src/main.rs:23-25 | `hello world` prints "hello world\n", or "hello world" with `-n` |
| EchorProperties.NeedsOneToken | echor/tests/cli.rs:4-15 | a single token "hello" prints "hello\n"; no token at all is a usage error that mentions "USAGE" |

## Left out

- Argument parsing by clap (the builders, `--help`, `--version`, `conflicts_with`) is left out. A parsed configuration is a parameter. `Catr.ValidConfig` records what argument parsing guarantees; no contract needs it, because `ModeOf` maps `(true, true)` to plain as `run` does.
- Head's `GetArgs` takes the raw count texts as parsing hands them over; the lossy conversion of the argument texts is not modelled.
- echo's usage message is clap's and is only modelled enough to show that it mentions "USAGE"; its exact wording and exit code are not modelled.
- Headr.ProcessBytes: allocating the N-byte buffer cannot fail in the model. In Rust `vec![0u8; bytes]` panics with a capacity overflow for N above `isize::MAX`, which the parsed count allows, and the process aborts when memory runs out; either happens after the file's header is printed. These crashes are not modelled.
- `String::from_utf8_lossy` is a function parameter `lossy` and is not modelled.
- Headr.Taken: a single `read` may hand over fewer bytes than are available. The model bounds what one read delivers by a per-source `burst`, and does not model every way a real reader may split its data.
- A head source is given two views: the results of successive `read_line` calls and a byte stream. The model does not tie them to the same bytes, because each run uses only one of them.
- Standard input read by more than one `-` in the file list gives the same content every time in the model. In a real process a later `-` goes on from wherever the earlier reader's read-ahead buffer stopped: for head, which uses only N lines or N bytes of what was buffered, that is usually past the part it printed and not the start; for cat, which reads to the end, it is at end of input. The model does not capture this shared position of standard input.
- `File::open`, `BufReader`, standard input and the operating system's error messages are abstract. A source is a name in a table, and a missing name fails with the "No such file or directory" message.
- `read_line` keeps the newline of each line, and the model treats a line as its text. cat's `lines()` strips "\n" and also "\r\n"; the model takes the stripped lines as the input, so the "\r" handling is not modelled.
- The cat line counters are unbounded. A `usize` overflow after 2^64 lines is not modelled.
- Exit codes and the printing of a returned error in `main` are outside the core and are not modelled.
