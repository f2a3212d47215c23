/** The output normaliser of the execution engine: a chain of whole-text passes,
    a specification by lines, and a single left-to-right pass. */
module OutputEvaluator {
  import opened Prelude

  // ----- The pipeline, pass by pass -----

  /** What `trimEnd` removes: ECMAScript WhiteSpace and LineTerminator. */
  predicate IsBlank(c: char) {
    var n := c as int;
    || 0x09 <= n <= 0x0D || n == 0x20 || n == 0xA0 || n == 0x1680
    || 0x2000 <= n <= 0x200A || n == 0x2028 || n == 0x2029
    || n == 0x202F || n == 0x205F || n == 0x3000 || n == 0xFEFF
  }

  function ReplaceCrLf(s: string): string {
    if s == "" then ""
    else if |s| >= 2 && s[0] == '\r' && s[1] == '\n' then "\n" + ReplaceCrLf(s[2..])
    else [s[0]] + ReplaceCrLf(s[1..])
  }

  function ReplaceCr(s: string): string {
    if s == "" then ""
    else [if s[0] == '\r' then '\n' else s[0]] + ReplaceCr(s[1..])
  }

  function Split(s: string): (lines: seq<string>)
    ensures |lines| >= 1
  {
    if s == "" then [""]
    else
      var rest := Split(s[1..]);
      if s[0] == '\n' then [""] + rest else [[s[0]] + rest[0]] + rest[1..]
  }

  function TrimEnd(s: string): string {
    if s != "" && IsBlank(s[|s| - 1]) then TrimEnd(s[..|s| - 1]) else s
  }

  function TrimAll(lines: seq<string>): (r: seq<string>)
    ensures |r| == |lines|
    ensures forall i :: 0 <= i < |lines| ==> r[i] == TrimEnd(lines[i])
  {
    seq(|lines|, i requires 0 <= i < |lines| => TrimEnd(lines[i]))
  }

  function Join(lines: seq<string>): string {
    if lines == [] then ""
    else if |lines| == 1 then lines[0]
    else lines[0] + "\n" + Join(lines[1..])
  }

  function Normalize(s: string): string {
    TrimEnd(Join(TrimAll(Split(ReplaceCr(ReplaceCrLf(s))))))
  }

  /** An argument of `normalizeOutput`: anything but a string counts as empty. */
  datatype Value = Text(text: string) | NotText

  function NormalizeOutput(v: Value): string {
    match v
    case Text(s) => Normalize(s)
    case NotText => ""
  }

  function EvaluateOutput(actual: Value, expected: Value): Verdict {
    if NormalizeOutput(actual) == NormalizeOutput(expected) then Accepted else WrongAnswer
  }

  // ----- The specification by lines -----

  predicate IsBreak(c: char) {
    c == '\r' || c == '\n'
  }

  predicate NoBreaks(s: string) {
    forall i :: 0 <= i < |s| ==> !IsBreak(s[i])
  }

  /** The lines of a text: CRLF, a lone CR and LF are one break each. */
  function Lines(s: string): (lines: seq<string>)
    ensures |lines| >= 1
    ensures forall i :: 0 <= i < |lines| ==> NoBreaks(lines[i])
  {
    if s == "" then [""]
    else if s[0] == '\r' && |s| >= 2 && s[1] == '\n' then [""] + Lines(s[2..])
    else if IsBreak(s[0]) then [""] + Lines(s[1..])
    else
      var rest := Lines(s[1..]);
      [[s[0]] + rest[0]] + rest[1..]
  }

  function DropTrailingEmpty(lines: seq<string>): (r: seq<string>)
    ensures r <= lines
    ensures r == [] || r[|r| - 1] != ""
    ensures forall i :: |r| <= i < |lines| ==> lines[i] == ""
  {
    if lines != [] && lines[|lines| - 1] == "" then DropTrailingEmpty(lines[..|lines| - 1]) else lines
  }

  /** What a text says once harmless white space is ignored. */
  function CanonicalLines(v: Value): seq<string> {
    match v
    case Text(s) => DropTrailingEmpty(TrimAll(Lines(s)))
    case NotText => []
  }

  // ----- Splitting after the two replacements yields the lines -----

  lemma {:induction false} SplitYieldsLines(s: string)
    ensures Split(ReplaceCr(ReplaceCrLf(s))) == Lines(s)
    decreases |s|
  {
    if s == "" {
    } else if |s| >= 2 && s[0] == '\r' && s[1] == '\n' {
      SplitYieldsLines(s[2..]);
      var t := ReplaceCrLf(s[2..]);
      assert ("\n" + t)[1..] == t;
      var u := ReplaceCr(t);
      assert ("\n" + u)[1..] == u;
    } else {
      SplitYieldsLines(s[1..]);
      var t := ReplaceCrLf(s[1..]);
      assert ([s[0]] + t)[1..] == t;
      var c := if s[0] == '\r' then '\n' else s[0];
      var u := ReplaceCr(t);
      assert ([c] + u)[1..] == u;
    }
  }

  // ----- Trimming the joined text drops the trailing empty lines -----

  /** A line with nothing to trim at its end. */
  predicate Trimmed(s: string) {
    s == "" || !IsBlank(s[|s| - 1])
  }

  lemma {:induction false} TrimEndIsPrefix(s: string)
    ensures TrimEnd(s) <= s && Trimmed(TrimEnd(s))
    ensures forall i :: |TrimEnd(s)| <= i < |s| ==> IsBlank(s[i])
    decreases |s|
  {
    if s == "" || !IsBlank(s[|s| - 1]) {
    } else {
      TrimEndIsPrefix(s[..|s| - 1]);
    }
  }

  lemma {:induction false} TrimEndAppend(s: string, blanks: string)
    requires forall i :: 0 <= i < |blanks| ==> IsBlank(blanks[i])
    ensures TrimEnd(s + blanks) == TrimEnd(s)
    decreases |blanks|
  {
    if blanks == "" {
      assert s + blanks == s;
    } else {
      var shorter := blanks[..|blanks| - 1];
      assert (s + blanks)[..|s + blanks| - 1] == s + shorter;
      TrimEndAppend(s, shorter);
    }
  }

  lemma {:induction false} JoinSnoc(lines: seq<string>, last: string)
    requires lines != []
    ensures Join(lines + [last]) == Join(lines) + "\n" + last
  {
    assert (lines + [last])[1..] == lines[1..] + [last];
    if |lines| > 1 {
      JoinSnoc(lines[1..], last);
      assert Join(lines + [last]) == lines[0] + "\n" + (Join(lines[1..]) + "\n" + last);
    } else {
      assert lines[1..] + [last] == [last];
    }
  }

  lemma {:induction false} JoinEndsWithLastLine(lines: seq<string>)
    requires lines != [] && lines[|lines| - 1] != ""
    ensures Join(lines) != ""
    ensures var last := lines[|lines| - 1]; Join(lines)[|Join(lines)| - 1] == last[|last| - 1]
  {
    var init := lines[..|lines| - 1];
    assert lines == init + [lines[|lines| - 1]];
    if init != [] {
      JoinSnoc(init, lines[|lines| - 1]);
    }
  }

  /** A text whose last line ends visibly has nothing to trim. */
  lemma TrimVisibleEnd(lines: seq<string>)
    requires lines != [] && lines[|lines| - 1] != "" && Trimmed(lines[|lines| - 1])
    ensures TrimEnd(Join(lines)) == Join(lines)
  {
    JoinEndsWithLastLine(lines);
  }

  /** An empty line at the end of a text is trimmed away. */
  lemma TrimEmptyLine(init: seq<string>)
    ensures TrimEnd(Join(init + [""])) == TrimEnd(Join(init))
  {
    if init == [] {
      assert init + [""] == [""];
    } else {
      JoinSnoc(init, "");
      assert Join(init) + "\n" + "" == Join(init) + "\n";
      TrimEndAppend(Join(init), "\n");
    }
  }

  lemma {:induction false} TrimJoinDropsEmptyLines(lines: seq<string>)
    requires forall i :: 0 <= i < |lines| ==> Trimmed(lines[i])
    ensures TrimEnd(Join(lines)) == Join(DropTrailingEmpty(lines))
    decreases |lines|
  {
    if lines == [] {
    } else if lines[|lines| - 1] != "" {
      TrimVisibleEnd(lines);
    } else {
      var init := lines[..|lines| - 1];
      TrimJoinDropsEmptyLines(init);
      assert lines == init + [""];
      TrimEmptyLine(init);
    }
  }

  lemma TrimAllTrims(lines: seq<string>)
    ensures forall i :: 0 <= i < |lines| ==> Trimmed(TrimAll(lines)[i])
  {
    forall i | 0 <= i < |lines| ensures Trimmed(TrimAll(lines)[i]) {
      TrimEndIsPrefix(lines[i]);
    }
  }

  /** The pipeline computes the canonical lines, joined. */
  lemma NormalizeJoinsCanonicalLines(v: Value)
    ensures NormalizeOutput(v) == Join(CanonicalLines(v))
  {
    if v.Text? {
      SplitYieldsLines(v.text);
      TrimAllTrims(Lines(v.text));
      TrimJoinDropsEmptyLines(TrimAll(Lines(v.text)));
    }
  }

  // ----- Joining loses nothing -----

  /** A list of lines that `CanonicalLines` can return. */
  predicate Canonical(lines: seq<string>) {
    && (forall i :: 0 <= i < |lines| ==> NoBreaks(lines[i]) && Trimmed(lines[i]))
    && (lines == [] || lines[|lines| - 1] != "")
  }

  lemma CanonicalLinesAreCanonical(v: Value)
    ensures Canonical(CanonicalLines(v))
  {
    if v.Text? {
      var lines := Lines(v.text);
      TrimAllTrims(lines);
      forall i | 0 <= i < |lines| ensures NoBreaks(TrimAll(lines)[i]) {
        TrimEndIsPrefix(lines[i]);
      }
    }
  }

  lemma {:induction false} LinesOfPrefixedText(line: string, rest: string)
    requires NoBreaks(line)
    requires rest == "" || rest[0] == '\n'
    ensures Lines(line + rest) == [line + Lines(rest)[0]] + Lines(rest)[1..]
    decreases |line|
  {
    if line == "" {
      assert line + rest == rest;
      assert line + Lines(rest)[0] == Lines(rest)[0];
    } else {
      assert (line + rest)[1..] == line[1..] + rest;
      assert NoBreaks(line[1..]);
      LinesOfPrefixedText(line[1..], rest);
      assert [line[0]] + (line[1..] + Lines(rest)[0]) == line + Lines(rest)[0];
    }
  }

  lemma {:induction false} LinesInvertJoin(lines: seq<string>)
    requires lines != []
    requires forall i :: 0 <= i < |lines| ==> NoBreaks(lines[i])
    ensures Lines(Join(lines)) == lines
    decreases |lines|
  {
    if |lines| == 1 {
      LinesOfPrefixedText(lines[0], "");
      assert lines[0] + "" == lines[0];
    } else {
      LinesInvertJoin(lines[1..]);
      var rest := "\n" + Join(lines[1..]);
      assert rest[1..] == Join(lines[1..]);
      LinesOfPrefixedText(lines[0], rest);
      assert lines[0] + "\n" + Join(lines[1..]) == lines[0] + rest;
      assert lines[0] + "" == lines[0];
    }
  }

  lemma TrimmedIsFixed(s: string)
    requires Trimmed(s)
    ensures TrimEnd(s) == s
  {
  }

  lemma CanonicalIsFixed(lines: seq<string>)
    requires Canonical(lines)
    ensures CanonicalLines(Text(Join(lines))) == lines
  {
    if lines == [] {
      assert Lines("") == [""];
      assert TrimAll([""]) == [""];
      assert DropTrailingEmpty([""]) == DropTrailingEmpty([""][..0]);
    } else {
      LinesInvertJoin(lines);
      forall i | 0 <= i < |lines| ensures TrimEnd(lines[i]) == lines[i] {
        TrimmedIsFixed(lines[i]);
      }
      assert TrimAll(lines) == lines;
    }
  }

  /** Sound and complete: two outputs match exactly when their canonical lines do. */
  lemma MatchIffSameLines(actual: Value, expected: Value)
    ensures EvaluateOutput(actual, expected) == Accepted
            <==> CanonicalLines(actual) == CanonicalLines(expected)
    ensures EvaluateOutput(actual, expected) != Accepted ==> EvaluateOutput(actual, expected) == WrongAnswer
  {
    NormalizeJoinsCanonicalLines(actual);
    NormalizeJoinsCanonicalLines(expected);
    CanonicalLinesAreCanonical(actual);
    CanonicalLinesAreCanonical(expected);
    CanonicalIsFixed(CanonicalLines(actual));
    CanonicalIsFixed(CanonicalLines(expected));
  }

  /** Normalising is idempotent, and a text matches its own normal form. */
  lemma NormalizeIdempotent(v: Value)
    ensures Normalize(NormalizeOutput(v)) == NormalizeOutput(v)
    ensures EvaluateOutput(v, Text(NormalizeOutput(v))) == Accepted
  {
    NormalizeJoinsCanonicalLines(v);
    CanonicalLinesAreCanonical(v);
    CanonicalIsFixed(CanonicalLines(v));
    NormalizeJoinsCanonicalLines(Text(NormalizeOutput(v)));
  }

  // ----- One left-to-right pass -----

  function Breaks(n: nat): string {
    if n == 0 then "" else "\n" + Breaks(n - 1)
  }

  /** Reads `s` once. `breaks` line breaks and then the blanks `pending` have been
      read but not written: they are dropped unless a visible character follows,
      and `pending` is dropped by the next break. */
  function OnePass(s: string, breaks: nat, pending: string): string {
    if s == "" then ""
    else if s[0] == '\r' && |s| >= 2 && s[1] == '\n' then OnePass(s[2..], breaks + 1, "")
    else if IsBreak(s[0]) then OnePass(s[1..], breaks + 1, "")
    else if IsBlank(s[0]) then OnePass(s[1..], breaks, pending + [s[0]])
    else Breaks(breaks) + pending + [s[0]] + OnePass(s[1..], 0, "")
  }

  lemma {:induction false} BreaksSnoc(n: nat)
    ensures Breaks(n + 1) == Breaks(n) + "\n"
  {
    if n == 0 {
    } else {
      BreaksSnoc(n - 1);
      assert "\n" + (Breaks(n - 1) + "\n") == ("\n" + Breaks(n - 1)) + "\n";
    }
  }

  lemma {:induction false} DropKeepsHead(head: string, tail: seq<string>)
    ensures DropTrailingEmpty([head] + tail)
            == if head == "" && DropTrailingEmpty(tail) == [] then [] else [head] + DropTrailingEmpty(tail)
    decreases |tail|
  {
    if tail == [] {
      assert [head] + tail == [head];
      assert [head][..0] == [];
    } else if tail[|tail| - 1] == "" {
      assert ([head] + tail)[..|tail|] == [head] + tail[..|tail| - 1];
      DropKeepsHead(head, tail[..|tail| - 1]);
    }
  }

  lemma {:induction false} TrimEndKeepsVisible(s: string, rest: string)
    requires s != "" && !IsBlank(s[|s| - 1])
    ensures TrimEnd(s + rest) == s + TrimEnd(rest)
    decreases |rest|
  {
    if rest == "" {
      assert s + rest == s;
    } else if IsBlank(rest[|rest| - 1]) {
      assert (s + rest)[..|s + rest| - 1] == s + rest[..|rest| - 1];
      TrimEndKeepsVisible(s, rest[..|rest| - 1]);
    }
  }

  lemma JoinHead(x: string, head: string, tail: seq<string>)
    ensures Join([x + head] + tail) == x + Join([head] + tail)
  {
    if tail != [] {
      assert ([head] + tail)[1..] == tail;
      assert ([x + head] + tail)[1..] == tail;
      assert x + head + "\n" + Join(tail) == x + (head + "\n" + Join(tail));
    }
  }

  lemma ConsHeadTail(lines: seq<string>)
    requires lines != []
    ensures [lines[0]] + lines[1..] == lines
    ensures ["" + lines[0]] + lines[1..] == lines
  {
    assert "" + lines[0] == lines[0];
  }

  /** Writing a visible prefix `x` in front of the first line of a text. */
  lemma JoinWithPrefix(x: string, lines: seq<string>)
    requires lines != [] && x != ""
    ensures Join(DropTrailingEmpty([x + lines[0]] + lines[1..])) == x + Join(DropTrailingEmpty(lines))
  {
    ConsHeadTail(lines);
    DropKeepsHead(x + lines[0], lines[1..]);
    DropKeepsHead(lines[0], lines[1..]);
    var tail := DropTrailingEmpty(lines[1..]);
    JoinHead(x, lines[0], tail);
    if lines[0] == "" && tail == [] {
      assert Join([lines[0]] + tail) == "";
    }
  }

  /** The lines still to be written when `pending` precedes `s` on its line. */
  function Remaining(s: string, pending: string): seq<string> {
    DropTrailingEmpty(TrimAll([pending + Lines(s)[0]] + Lines(s)[1..]))
  }

  predicate AllBlank(s: string) {
    forall i :: 0 <= i < |s| ==> IsBlank(s[i])
  }

  lemma TrimBlankLine(s: string)
    requires AllBlank(s)
    ensures TrimEnd(s) == ""
  {
    TrimEndAppend("", s);
    assert "" + s == s;
  }

  lemma TrimAllCons(head: string, tail: seq<string>)
    ensures TrimAll([head] + tail) == [TrimEnd(head)] + TrimAll(tail)
  {
  }

  lemma RemainingAfterBreak(s: string, rest: string, pending: string)
    requires AllBlank(pending)
    requires Lines(s) == [""] + Lines(rest)
    ensures Remaining(s, pending)
            == if Remaining(rest, "") == [] then [] else [""] + Remaining(rest, "")
  {
    var tail := Lines(rest);
    assert pending + "" == pending && Lines(s)[1..] == tail;
    TrimBlankLine(pending);
    TrimAllCons(pending, tail);
    DropKeepsHead("", TrimAll(tail));
    ConsHeadTail(tail);
  }

  lemma RemainingFromVisible(s: string, pending: string)
    requires s != "" && !IsBlank(s[0])
    ensures Remaining(s, pending) != []
    ensures Join(Remaining(s, pending)) == pending + [s[0]] + Join(Remaining(s[1..], ""))
  {
    var x := pending + [s[0]];
    var rest := Lines(s[1..]);
    assert !IsBreak(s[0]);
    assert Lines(s)[1..] == rest[1..] && Lines(s)[0] == [s[0]] + rest[0];
    assert pending + ([s[0]] + rest[0]) == x + rest[0];
    TrimEndKeepsVisible(x, rest[0]);
    TrimAllCons(x + rest[0], rest[1..]);
    ConsHeadTail(rest);
    TrimAllCons(rest[0], rest[1..]);
    var trimmed := TrimAll(rest);
    assert trimmed[1..] == TrimAll(rest[1..]);
    JoinWithPrefix(x, trimmed);
    DropKeepsHead(x + trimmed[0], trimmed[1..]);
  }

  lemma WriteBreak(breaks: nat, rest: seq<string>)
    requires rest != []
    ensures Breaks(breaks) + Join([""] + rest) == Breaks(breaks + 1) + Join(rest)
  {
    assert ([""] + rest)[1..] == rest;
    BreaksSnoc(breaks);
    assert "" + "\n" + Join(rest) == "\n" + Join(rest);
    assert Breaks(breaks) + ("\n" + Join(rest)) == (Breaks(breaks) + "\n") + Join(rest);
  }

  /** What the one pass must write from a given point on. */
  function StillToWrite(s: string, breaks: nat, pending: string): string {
    var lines := Remaining(s, pending);
    if lines == [] then "" else Breaks(breaks) + Join(lines)
  }

  lemma WriteAfterBreak(s: string, rest: string, breaks: nat, pending: string)
    requires AllBlank(pending)
    requires Lines(s) == [""] + Lines(rest)
    ensures StillToWrite(s, breaks, pending) == StillToWrite(rest, breaks + 1, "")
  {
    RemainingAfterBreak(s, rest, pending);
    if Remaining(rest, "") != [] {
      WriteBreak(breaks, Remaining(rest, ""));
    }
  }

  lemma WriteAfterBlank(s: string, breaks: nat, pending: string)
    requires s != "" && !IsBreak(s[0])
    ensures StillToWrite(s, breaks, pending) == StillToWrite(s[1..], breaks, pending + [s[0]])
  {
    var rest := Lines(s[1..]);
    assert pending + ([s[0]] + rest[0]) == (pending + [s[0]]) + rest[0];
    assert Lines(s)[0] == [s[0]] + rest[0] && Lines(s)[1..] == rest[1..];
  }

  lemma WriteVisible(s: string, breaks: nat, pending: string)
    requires s != "" && !IsBlank(s[0])
    ensures StillToWrite(s, breaks, pending)
            == Breaks(breaks) + pending + [s[0]] + StillToWrite(s[1..], 0, "")
  {
    RemainingFromVisible(s, pending);
    var rest := Join(Remaining(s[1..], ""));
    assert Breaks(0) + rest == rest;
    ConcatAssociates(Breaks(breaks), pending, [s[0]], rest);
  }

  lemma ConcatAssociates(a: string, b: string, c: string, d: string)
    ensures a + b + c + d == a + (b + c + d)
  {
  }

  lemma WriteNothing(breaks: nat, pending: string)
    requires AllBlank(pending)
    ensures StillToWrite("", breaks, pending) == ""
  {
    TrimBlankLine(pending);
    assert Lines("") == [""] && pending + "" == pending;
    TrimAllCons(pending, []);
    DropKeepsHead("", []);
  }

  lemma {:induction false} OnePassWritesRemaining(s: string, breaks: nat, pending: string)
    requires AllBlank(pending)
    ensures OnePass(s, breaks, pending) == StillToWrite(s, breaks, pending)
    decreases |s|
  {
    if s == "" {
      WriteNothing(breaks, pending);
    } else if s[0] == '\r' && |s| >= 2 && s[1] == '\n' {
      OnePassWritesRemaining(s[2..], breaks + 1, "");
      WriteAfterBreak(s, s[2..], breaks, pending);
    } else if IsBreak(s[0]) {
      OnePassWritesRemaining(s[1..], breaks + 1, "");
      WriteAfterBreak(s, s[1..], breaks, pending);
    } else if IsBlank(s[0]) {
      OnePassWritesRemaining(s[1..], breaks, pending + [s[0]]);
      WriteAfterBlank(s, breaks, pending);
    } else {
      OnePassWritesRemaining(s[1..], 0, "");
      WriteVisible(s, breaks, pending);
    }
  }

  /** The whole pipeline equals one pass that buffers white space. */
  lemma PipelineIsOnePass(s: string)
    ensures Normalize(s) == OnePass(s, 0, "")
  {
    NormalizeJoinsCanonicalLines(Text(s));
    OnePassWritesRemaining(s, 0, "");
    ConsHeadTail(Lines(s));
    assert Breaks(0) + Join(Remaining(s, "")) == Join(Remaining(s, ""));
  }

  // ----- Which characters are white space, and which end a line -----

  /** White space and line terminators of the language standard, one by one. */
  predicate IsSpaceCode(n: int) {
    n in {0x09, 0x0A, 0x0B, 0x0C, 0x0D, 0x20, 0xA0, 0x1680,
          0x2000, 0x2001, 0x2002, 0x2003, 0x2004, 0x2005, 0x2006, 0x2007, 0x2008, 0x2009, 0x200A,
          0x2028, 0x2029, 0x202F, 0x205F, 0x3000, 0xFEFF}
  }

  /** The characters of a text that are not white space. */
  function Visible(s: string): string {
    if s == "" then "" else (if IsSpaceCode(s[0] as int) then "" else [s[0]]) + Visible(s[1..])
  }

  lemma {:induction false} VisibleConcat(s: string, t: string)
    ensures Visible(s + t) == Visible(s) + Visible(t)
  {
    if s == "" {
      assert s + t == t;
    } else {
      assert (s + t)[1..] == s[1..] + t;
      VisibleConcat(s[1..], t);
    }
  }

  lemma {:induction false} BlanksAreInvisible(s: string)
    requires AllBlank(s)
    ensures Visible(s) == ""
  {
    if s == "" {
    } else {
      assert IsBlank(s[0]);
      BlanksAreInvisible(s[1..]);
    }
  }

  lemma {:induction false} BreaksAreInvisible(n: nat)
    ensures Visible(Breaks(n)) == ""
  {
    if n == 0 {
    } else {
      VisibleConcat("\n", Breaks(n - 1));
      assert Visible("\n") == "";
      BreaksAreInvisible(n - 1);
    }
  }

  lemma VisibleWritten(breaks: nat, pending: string, c: char, rest: string)
    requires AllBlank(pending) && !IsBlank(c)
    ensures Visible(Breaks(breaks) + pending + [c] + rest) == [c] + Visible(rest)
  {
    BreaksAreInvisible(breaks);
    BlanksAreInvisible(pending);
    VisibleConcat(Breaks(breaks), pending);
    VisibleConcat(Breaks(breaks) + pending, [c]);
    VisibleConcat(Breaks(breaks) + pending + [c], rest);
    assert Visible([c]) == [c];
  }

  lemma VisibleAfterBlank(s: string)
    requires s != "" && IsBlank(s[0])
    ensures Visible(s) == Visible(s[1..])
  {
  }

  lemma VisibleAfterCrLf(s: string)
    requires |s| >= 2 && s[0] == '\r' && s[1] == '\n'
    ensures Visible(s) == Visible(s[2..])
  {
    VisibleAfterBlank(s);
    VisibleAfterBlank(s[1..]);
    assert s[1..][1..] == s[2..];
  }

  lemma {:induction false} OnePassKeepsVisible(s: string, breaks: nat, pending: string)
    requires AllBlank(pending)
    ensures Visible(OnePass(s, breaks, pending)) == Visible(s)
    decreases |s|
  {
    if s == "" {
    } else if s[0] == '\r' && |s| >= 2 && s[1] == '\n' {
      OnePassKeepsVisible(s[2..], breaks + 1, "");
      VisibleAfterCrLf(s);
    } else if IsBreak(s[0]) {
      OnePassKeepsVisible(s[1..], breaks + 1, "");
      VisibleAfterBlank(s);
    } else if IsBlank(s[0]) {
      OnePassKeepsVisible(s[1..], breaks, pending + [s[0]]);
      VisibleAfterBlank(s);
    } else {
      OnePassKeepsVisible(s[1..], 0, "");
      VisibleWritten(breaks, pending, s[0], OnePass(s[1..], 0, ""));
    }
  }

  lemma {:induction false} OnePassDropsTrailingBlank(s: string, c: char, breaks: nat, pending: string)
    requires IsBlank(c)
    ensures OnePass(s + [c], breaks, pending) == OnePass(s, breaks, pending)
    decreases |s|
  {
    if s == "" {
      assert s + [c] == [c] && [c][1..] == "";
    } else if s[0] == '\r' && |s| >= 2 && s[1] == '\n' {
      assert (s + [c])[2..] == s[2..] + [c];
      OnePassDropsTrailingBlank(s[2..], c, breaks + 1, "");
    } else if s == "\r" && c == '\n' {
      assert (s + [c])[2..] == "" && s[1..] == "";
    } else {
      assert (s + [c])[1..] == s[1..] + [c];
      if IsBreak(s[0]) {
        OnePassDropsTrailingBlank(s[1..], c, breaks + 1, "");
      } else if IsBlank(s[0]) {
        OnePassDropsTrailingBlank(s[1..], c, breaks, pending + [s[0]]);
      } else {
        OnePassDropsTrailingBlank(s[1..], c, 0, "");
      }
    }
  }

  /** Normalising drops white space only. */
  lemma NormalizeKeepsVisible(s: string)
    ensures Visible(Normalize(s)) == Visible(s)
  {
    PipelineIsOnePass(s);
    OnePassKeepsVisible(s, 0, "");
  }

  /** A character more at the end of an output makes no difference if and only if it is
      white space. */
  lemma TrailingCharacterIgnoredIff(s: string, c: char)
    ensures EvaluateOutput(Text(s + [c]), Text(s)) == Accepted <==> IsSpaceCode(c as int)
  {
    PipelineIsOnePass(s);
    PipelineIsOnePass(s + [c]);
    if IsSpaceCode(c as int) {
      OnePassDropsTrailingBlank(s, c, 0, "");
    } else {
      NormalizeKeepsVisible(s);
      NormalizeKeepsVisible(s + [c]);
      VisibleConcat(s, [c]);
      assert Visible([c]) == [c];
    }
  }

  /** `mark` is a break between two texts, and not a part of another one. */
  predicate BreaksBetween(before: string, mark: string, after: string) {
    || mark == "\r\n"
    || (mark == "\r" && (after == "" || after[0] != '\n'))
    || (mark == "\n" && (before == "" || before[|before| - 1] != '\r'))
  }

  lemma LinesFromBreak(mark: string, after: string)
    requires BreaksBetween("", mark, after)
    ensures Lines(mark + after) == [""] + Lines(after)
  {
    assert (mark + after)[|mark|..] == after;
  }

  /** The lines of a text that starts with `c`, which is not a break. */
  function OnFirstLine(c: char, lines: seq<string>): seq<string>
    requires lines != []
  {
    [[c] + lines[0]] + lines[1..]
  }

  lemma OnFirstLineOfConcat(c: char, lines: seq<string>, more: seq<string>)
    requires lines != []
    ensures OnFirstLine(c, lines + more) == OnFirstLine(c, lines) + more
  {
    assert (lines + more)[1..] == lines[1..] + more;
  }

  lemma LinesAfterHead(c: char, tail: string, rest: string, lines: seq<string>)
    requires !IsBreak(c) && Lines(tail + rest) == Lines(tail) + lines
    ensures Lines([c] + tail + rest) == Lines([c] + tail) + lines
  {
    assert ([c] + tail + rest)[1..] == tail + rest && ([c] + tail)[1..] == tail;
    OnFirstLineOfConcat(c, Lines(tail), lines);
  }

  lemma LinesAfterBreak(c: char, tail: string, rest: string, lines: seq<string>)
    requires IsBreak(c) && Lines(tail + rest) == Lines(tail) + lines
    requires c == '\r' ==> (tail + rest == "" || (tail + rest)[0] != '\n') && (tail == "" || tail[0] != '\n')
    ensures Lines([c] + tail + rest) == Lines([c] + tail) + lines
  {
    assert ([c] + tail + rest)[1..] == tail + rest && ([c] + tail)[1..] == tail;
    assert [""] + (Lines(tail) + lines) == [""] + Lines(tail) + lines;
  }

  lemma LinesAfterCrLf(tail: string, rest: string, lines: seq<string>)
    requires Lines(tail + rest) == Lines(tail) + lines
    ensures Lines("\r\n" + tail + rest) == Lines("\r\n" + tail) + lines
  {
    assert ("\r\n" + tail + rest)[2..] == tail + rest && ("\r\n" + tail)[2..] == tail;
    assert [""] + (Lines(tail) + lines) == [""] + Lines(tail) + lines;
  }

  lemma {:induction false} LinesOfParts(before: string, rest: string, lines: seq<string>)
    requires Lines(rest) == [""] + lines
    requires before == "" || before[|before| - 1] != '\r' || rest == "" || rest[0] != '\n'
    ensures Lines(before + rest) == Lines(before) + lines
    decreases |before|
  {
    if before == "" {
      assert before + rest == rest;
    } else if before[0] == '\r' && |before| >= 2 && before[1] == '\n' {
      LinesOfParts(before[2..], rest, lines);
      LinesAfterCrLf(before[2..], rest, lines);
      assert before == "\r\n" + before[2..];
    } else {
      LinesOfParts(before[1..], rest, lines);
      assert before == [before[0]] + before[1..];
      if IsBreak(before[0]) {
        LinesAfterBreak(before[0], before[1..], rest, lines);
      } else {
        LinesAfterHead(before[0], before[1..], rest, lines);
      }
    }
  }

  /** CRLF, a lone CR and a lone LF each end a line, wherever they are; the lines before
      and after are those of the two parts. */
  lemma EveryBreakEndsALine(before: string, mark: string, after: string)
    requires BreaksBetween(before, mark, after)
    ensures Lines(before + mark + after) == Lines(before) + Lines(after)
  {
    LinesFromBreak(mark, after);
    LinesOfParts(before, mark + after, Lines(after));
    assert before + mark + after == before + (mark + after);
  }

  /** A text without breaks is one line. */
  lemma {:induction false} NoBreakNoEnd(s: string)
    requires forall i :: 0 <= i < |s| ==> s[i] !in {'\r', '\n'}
    ensures Lines(s) == [s]
  {
    if s == "" {
    } else {
      NoBreakNoEnd(s[1..]);
      assert [s[0]] + s[1..] == s;
    }
  }
}
