/** Indenting text for a YAML literal block scalar, and what a YAML reader makes of it. */
module Layout {
  import opened Prelude
  import opened Lines

  function SpacesOf(n: nat): string {
    if n == 0 then "" else " " + SpacesOf(n - 1)
  }

  function IndentLine(line: string, n: nat): string {
    if line == "" then "" else SpacesOf(n) + line
  }

  function IndentAll(lines: seq<string>, n: nat): seq<string> {
    seq(|lines|, i requires 0 <= i < |lines| => IndentLine(lines[i], n))
  }

  /** What indentLines computes: every non-empty line moved right by n. */
  function Indent(s: string, n: nat): string {
    Join(IndentAll(LinesOf(s), n), '\n')
  }

  /** Line by line: an empty line stays empty, any other gets n spaces in front; no line is added or lost. */
  lemma IndentExactly(s: string, n: nat, i: nat)
    requires i < |LinesOf(s)|
    ensures |LinesOf(Indent(s, n))| == |LinesOf(s)|
    ensures var line, indented := LinesOf(s)[i], LinesOf(Indent(s, n))[i];
            && (line == "" ==> indented == "")
            && (line != "" ==> && |indented| == n + |line| && indented[n..] == line
                               && forall k :: 0 <= k < n ==> indented[k] == ' ')
  {
    IndentedLines(s, n);
    SpacesLength(n);
    SpacesAreSpaces(n);
  }

  lemma {:induction false} SpacesAreSpaces(n: nat)
    ensures forall k :: 0 <= k < |SpacesOf(n)| ==> SpacesOf(n)[k] == ' '
  {
    if n > 0 {
      SpacesAreSpaces(n - 1);
    }
  }

  /** indentLines: the slice of lines is edited in place. */
  method IndentLines(s: string, n: nat) returns (indented: string)
    ensures indented == Indent(s, n)
  {
    var prefix := SpacesOf(n);
    var lines := LinesOf(s);
    ghost var original := lines;
    var i := 0;
    while i < |lines|
      invariant 0 <= i <= |lines| == |original|
      invariant forall j :: 0 <= j < i ==> lines[j] == IndentLine(original[j], n)
      invariant forall j :: i <= j < |lines| ==> lines[j] == original[j]
    {
      if lines[i] != "" {
        lines := lines[i := prefix + lines[i]];
      }
      i := i + 1;
    }
    assert lines == IndentAll(original, n);
    indented := Join(lines, '\n');
  }

  /* -------------------------------------------------------------------- taking it back */

  function LeadingSpaces(line: string): (n: nat)
    ensures n <= |line|
  {
    if line == "" || line[0] != ' ' then 0 else 1 + LeadingSpaces(line[1..])
  }

  /** Remove up to n leading spaces. */
  function Strip(line: string, n: nat): string {
    if n == 0 || line == "" || line[0] != ' ' then line else Strip(line[1..], n - 1)
  }

  function StripAll(lines: seq<string>, n: nat): seq<string> {
    seq(|lines|, i requires 0 <= i < |lines| => Strip(lines[i], n))
  }

  lemma {:induction false} StripIndented(line: string, n: nat)
    ensures Strip(SpacesOf(n) + line, n) == line
    ensures LeadingSpaces(SpacesOf(n) + line) == n + LeadingSpaces(line)
    decreases n
  {
    if n == 0 {
      assert "" + line == line;
    } else {
      StripIndented(line, n - 1);
      assert (SpacesOf(n) + line)[1..] == SpacesOf(n - 1) + line;
    }
  }

  lemma SpacesHaveNoNewline(n: nat)
    ensures '\n' !in SpacesOf(n)
  {
  }

  /** The lines of the indented text are the indented lines. */
  lemma IndentedLines(s: string, n: nat)
    ensures LinesOf(Indent(s, n)) == IndentAll(LinesOf(s), n)
  {
    JoinSplit(s, '\n');
    SpacesHaveNoNewline(n);
    SplitJoin(IndentAll(LinesOf(s), n), '\n');
  }

  lemma StripOfIndentAll(lines: seq<string>, n: nat)
    ensures StripAll(IndentAll(lines, n), n) == lines
  {
    forall i | 0 <= i < |lines|
      ensures Strip(IndentAll(lines, n)[i], n) == lines[i]
    {
      StripIndented(lines[i], n);
    }
  }

  /** Removing the indentation from every line gives the text back, for every text and every n. */
  lemma IndentRoundTrip(s: string, n: nat)
    ensures Join(StripAll(LinesOf(Indent(s, n)), n), '\n') == s
  {
    IndentedLines(s, n);
    StripOfIndentAll(LinesOf(s), n);
    JoinSplit(s, '\n');
  }

  /* -------------------------------------- YAML 1.2.2, sections 8.1.1.1 and 8.1.2: `|` scalars */

  predicate Blank(line: string) {
    LeadingSpaces(line) == |line|
  }

  /** The content indentation: that of the first line that is not blank. */
  function Detected(lines: seq<string>): Option<nat> {
    if lines == [] then None
    else if Blank(lines[0]) then Detected(lines[1..])
    else Some(LeadingSpaces(lines[0]))
  }

  /** The scalar ends before the first non-blank line that is less indented. */
  function Content(lines: seq<string>, n: nat): seq<string> {
    if lines == [] || (!Blank(lines[0]) && LeadingSpaces(lines[0]) < n) then []
    else [Strip(lines[0], n)] + Content(lines[1..], n)
  }

  function DropTrailingEmpty(lines: seq<string>): seq<string> {
    if lines == [] || lines[|lines| - 1] != "" then lines else DropTrailingEmpty(lines[..|lines| - 1])
  }

  /** Clip chomping: the final line break is kept, further trailing empty lines are not. */
  function Clip(lines: seq<string>): string {
    var kept := DropTrailingEmpty(lines);
    if kept == [] then "" else Join(kept, '\n') + "\n"
  }

  /** The value of a literal block scalar from the lines after its header. */
  function BlockScalar(lines: seq<string>): string {
    match Detected(lines)
    case None => ""
    case Some(n) => Clip(Content(lines, n))
  }

  /** The first line that is not empty starts with something other than a space. */
  predicate StartsFlush(lines: seq<string>) {
    lines != [] && if lines[0] == "" then StartsFlush(lines[1..]) else lines[0][0] != ' '
  }

  lemma {:induction false} DetectsIndentation(lines: seq<string>, n: nat, after: seq<string>)
    requires StartsFlush(lines)
    ensures Detected(IndentAll(lines, n) + after) == Some(n)
    decreases |lines|
  {
    var all := IndentAll(lines, n) + after;
    if lines[0] == "" {
      assert all[1..] == IndentAll(lines[1..], n) + after;
      DetectsIndentation(lines[1..], n, after);
    } else {
      StripIndented(lines[0], n);
      assert all[0] == SpacesOf(n) + lines[0];
      assert |SpacesOf(n) + lines[0]| == n + |lines[0]| by {
        SpacesLength(n);
      }
    }
  }

  lemma {:induction false} SpacesLength(n: nat)
    ensures |SpacesOf(n)| == n
  {
    if n > 0 {
      SpacesLength(n - 1);
    }
  }

  /** Where the document goes on less indented, or ends. */
  predicate Dedents(after: seq<string>, n: nat) {
    after == [] || (!Blank(after[0]) && LeadingSpaces(after[0]) < n)
  }

  lemma {:induction false} ContentIsLines(lines: seq<string>, n: nat, after: seq<string>)
    requires Dedents(after, n)
    ensures Content(IndentAll(lines, n) + after, n) == lines
    decreases |lines|
  {
    var all := IndentAll(lines, n) + after;
    if lines == [] {
      assert all == after;
    } else {
      assert all[1..] == IndentAll(lines[1..], n) + after;
      assert all[0] == IndentLine(lines[0], n);
      ContentIsLines(lines[1..], n, after);
      StripIndented(lines[0], n);
      assert lines == [lines[0]] + lines[1..];
    }
  }

  /**
   * A YAML reader finds the indentation and returns the text, up to clipping of its trailing line
   * breaks, whatever follows in the document.
   */
  lemma BlockScalarRoundTrip(s: string, n: nat, after: seq<string>)
    requires StartsFlush(LinesOf(s)) && Dedents(after, n)
    ensures Detected(LinesOf(Indent(s, n)) + after) == Some(n)
    ensures BlockScalar(LinesOf(Indent(s, n)) + after) == Clip(LinesOf(s))
  {
    IndentedLines(s, n);
    DetectsIndentation(LinesOf(s), n, after);
    ContentIsLines(LinesOf(s), n, after);
  }
}
