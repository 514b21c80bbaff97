/** The echo tool: its text arguments joined by single spaces, followed by a newline
    unless `-n` is given. */
module Echor {

  /** `join(" ")`: the tokens in order, one space between neighbours. */
  function Join(tokens: seq<string>): string
  {
    if |tokens| == 0 then ""
    else if |tokens| == 1 then tokens[0]
    else tokens[0] + " " + Join(tokens[1..])
  }

  /** The error argument parsing reports when no text is given. */
  const Usage: string := UsageLead + "USAGE" + UsageTail
  const UsageLead: string := "error: The following required arguments were not provided:\n    <TEXT>...\n\n"
  const UsageTail: string := ":\n    echor [OPTIONS] <TEXT>...\n\nFor more information try --help\n"

  /** `w` stands in `s` starting at position `i`. */
  predicate OccursAt(s: string, w: string, i: int)
  {
    0 <= i <= |s| - |w| && s[i..i + |w|] == w
  }

  /** `w` occurs somewhere in `s`. */
  predicate Mentions(s: string, w: string)
  {
    exists i :: 0 <= i <= |s| - |w| && OccursAt(s, w, i)
  }

  /** What a run prints: the text on standard output, or a usage error on standard error. */
  datatype Outcome = Printed(stdout: string) | UsageError(stderr: string)

  /** `main`: at least one text argument is required; the text is joined and ended by
      a newline unless the newline is omitted. */
  function Echo(text: seq<string>, omitNewline: bool): (r: Outcome)
    ensures r.UsageError? <==> |text| == 0
    ensures r.UsageError? ==> Mentions(r.stderr, "USAGE")
    ensures r.Printed? ==> r.stdout == Join(text) + (if omitNewline then "" else "\n")
  {
    if |text| == 0 then
      assert OccursAt(Usage, "USAGE", |UsageLead|);
      UsageError(Usage)
    else
      var ending := if omitNewline then "" else "\n";
      Printed(Join(text) + ending)
  }
}

/** What the echo tool's output holds. */
module EchorProperties {
  import opened Streams
  import opened Echor

  /** Where token `k` starts in the joined text: after every earlier token and its space. */
  function Offset(tokens: seq<string>, k: nat): nat
    requires k <= |tokens|
  {
    if k == 0 then 0 else |tokens[0]| + 1 + Offset(tokens[1..], k - 1)
  }

  /** Each token stands unchanged at its offset, and a single space follows it unless it
      is the last. */
  lemma {:induction false} JoinPlacesTokens(tokens: seq<string>, k: nat)
    requires k < |tokens|
    ensures Offset(tokens, k) + |tokens[k]| <= |Join(tokens)|
    ensures Join(tokens)[Offset(tokens, k)..Offset(tokens, k) + |tokens[k]|] == tokens[k]
    ensures k + 1 < |tokens| ==>
              Offset(tokens, k) + |tokens[k]| < |Join(tokens)| && Join(tokens)[Offset(tokens, k) + |tokens[k]|] == ' '
  {
    if |tokens| > 1 {
      var rest := Join(tokens[1..]);
      var s := Join(tokens);
      assert s == tokens[0] + " " + rest;
      if k > 0 {
        JoinPlacesTokens(tokens[1..], k - 1);
        var p := |tokens[0]| + 1;
        var o := Offset(tokens[1..], k - 1);
        assert s[p + o..p + o + |tokens[k]|] == rest[o..o + |tokens[k]|];
        if k + 1 < |tokens| {
          assert s[p + o + |tokens[k]|] == rest[o + |tokens[k]|];
        }
      } else {
        assert s[..|tokens[0]|] == tokens[0];
      }
    }
  }

  /** The joined text is the tokens and one space between each pair of neighbours, and
      nothing more: no leading or trailing space. */
  lemma {:induction false} JoinLength(tokens: seq<string>)
    requires 0 < |tokens|
    ensures |Join(tokens)| + 1 == Offset(tokens, |tokens|)
  {
    if |tokens| > 1 {
      JoinLength(tokens[1..]);
    }
  }

  /** Text cut at every space. */
  function Split(s: string): (r: seq<string>)
    decreases |s|
  {
    var i := IndexOf(s, ' ');
    if i == |s| then [s] else [s[..i]] + Split(s[i + 1..])
  }

  /** Cutting the joined text at its spaces gives the tokens back, when no token holds a
      space itself. */
  lemma {:induction false} SplitJoin(tokens: seq<string>)
    requires 0 < |tokens|
    requires forall k :: 0 <= k < |tokens| ==> ' ' !in tokens[k]
    ensures Split(Join(tokens)) == tokens
  {
    if |tokens| == 1 {
      assert IndexOf(tokens[0], ' ') == |tokens[0]|;
    } else {
      var rest := Join(tokens[1..]);
      var s := tokens[0] + (" " + rest);
      assert Join(tokens) == s;
      IndexOfAfter(tokens[0], " " + rest, ' ');
      assert s[..|tokens[0]|] == tokens[0];
      assert s[|tokens[0]| + 1..] == rest;
      SplitJoin(tokens[1..]);
    }
  }

  /** `-n` changes only the ending: without it the same text is printed with one newline
      more, and with it the text is the joined tokens exactly. */
  lemma {:induction false} FlagOnlyDropsNewline(tokens: seq<string>)
    requires 0 < |tokens|
    ensures Echo(tokens, true) == Printed(Join(tokens))
    ensures Echo(tokens, false) == Printed(Echo(tokens, true).stdout + "\n")
  {
  }

  /** `hello world` prints "hello world" and a newline, or no newline with `-n`. */
  lemma {:induction false} HelloWorld()
    ensures Echo(["hello", "world"], false) == Printed("hello world\n")
    ensures Echo(["hello", "world"], true) == Printed("hello world")
  {
    assert ["hello", "world"][1..] == ["world"];
  }

  /** One token runs; no token is a usage error naming the usage. */
  lemma {:induction false} NeedsOneToken()
    ensures Echo(["hello"], false) == Printed("hello\n")
    ensures Echo([], false).UsageError? && Mentions(Echo([], false).stderr, "USAGE")
  {
  }
}
