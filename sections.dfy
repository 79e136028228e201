/** How the chat view cuts a model reply into prose and code before rendering
    it (`renderModelResponse` in frontend/src/App.jsx). A reply without a
    triple backtick is rendered whole as markdown. Otherwise it is split into
    lines and scanned with two states, plain text and inside a code block: a
    line that trims to exactly three backticks switches the state and is
    dropped, and every other line, with a line feed after it, goes into the
    section being built. */
module Sections {
  import opened Common

  datatype SectionType = Text | Code

  datatype Section = Section(kind: SectionType, content: string)

  /** What renderModelResponse draws: one markdown block, or a list of
      sections, each drawn as markdown (Text) or highlighted code (Code). */
  datatype Rendered = Markdown(content: string) | Blocks(sections: seq<Section>)

  const Fence: string := "```"

  /** A line that opens or closes a code block. */
  predicate IsFence(line: string) {
    Trim(line) == Fence
  }

  // ---------------------------------------------------------------------
  // The scanner, as a specification: the state after each prefix of lines
  // ---------------------------------------------------------------------

  /** The scanner's variables: the finished sections, the text of the
      section being built, and whether the scan is inside a code block. */
  datatype ScanState = ScanState(sections: seq<Section>, currentText: string, inCodeBlock: bool)

  const Start: ScanState := ScanState([], "", false)

  /** One iteration of the scanning loop. */
  function Step(st: ScanState, line: string): ScanState {
    if IsFence(line) && !st.inCodeBlock then
      ScanState(if st.currentText != "" then st.sections + [Section(Text, st.currentText)] else st.sections, "", true)
    else if IsFence(line) && st.inCodeBlock then
      ScanState(st.sections + [Section(Code, st.currentText)], "", false)
    else
      st.(currentText := st.currentText + line + "\n")
  }

  /** The scanner's state after the given lines. */
  function Scan(lines: seq<string>): ScanState {
    if lines == [] then Start else Step(Scan(lines[..|lines| - 1]), lines[|lines| - 1])
  }

  /** The sections once the leftover text, if any, has been added: as code
      when the scan ended inside an unclosed block, as text otherwise. */
  function Flush(st: ScanState): seq<Section> {
    if st.currentText != "" then
      st.sections + [Section(if st.inCodeBlock then Code else Text, st.currentText)]
    else st.sections
  }

  /** The sections of a reply that contains a code fence. */
  function SectionsOf(content: string): seq<Section> {
    Flush(Scan(SplitLines(content)))
  }

  /** What renderModelResponse produces for a reply. */
  function Render(content: string): (r: Rendered)
    ensures r.Markdown? <==> !Includes(content, Fence)
    ensures r.Markdown? ==> r.content == content
  {
    if !Includes(content, Fence) then Markdown(content) else Blocks(SectionsOf(content))
  }

  // ---------------------------------------------------------------------
  // The implementation: the loop of renderModelResponse
  // ---------------------------------------------------------------------

  method RenderModelResponse(content: string) returns (r: Rendered)
    ensures r == Render(content)
  {
    if !Includes(content, Fence) {
      return Markdown(content);
    }
    var sections: seq<Section> := [];
    var currentText := "";
    var inCodeBlock := false;
    var lines := SplitLines(content);
    for i := 0 to |lines|
      invariant ScanState(sections, currentText, inCodeBlock) == Scan(lines[..i])
    {
      var line := lines[i];
      if Trim(line) == Fence && !inCodeBlock {
        if currentText != "" {
          sections := sections + [Section(Text, currentText)];
          currentText := "";
        }
        inCodeBlock := true;
      } else if Trim(line) == Fence && inCodeBlock {
        sections := sections + [Section(Code, currentText)];
        currentText := "";
        inCodeBlock := false;
      } else {
        currentText := currentText + line + "\n";
      }
      assert lines[..i + 1][..i] == lines[..i];
    }
    assert lines[..|lines|] == lines;
    if currentText != "" {
      sections := sections + [Section(if inCodeBlock then Code else Text, currentText)];
    }
    r := Blocks(sections);
  }

  // ---------------------------------------------------------------------
  // Independent descriptions of the lines
  // ---------------------------------------------------------------------

  /** The lines that are not fences, in order, each followed by a line feed. */
  function Body(lines: seq<string>): string {
    if lines == [] then ""
    else Body(lines[..|lines| - 1]) + (if IsFence(lines[|lines| - 1]) then "" else lines[|lines| - 1] + "\n")
  }

  /** How many of the lines are fences. */
  function FenceCount(lines: seq<string>): nat {
    if lines == [] then 0
    else FenceCount(lines[..|lines| - 1]) + (if IsFence(lines[|lines| - 1]) then 1 else 0)
  }

  /** The lines after the last fence (all of them if there is none). */
  function Trailing(lines: seq<string>): seq<string> {
    if lines == [] then []
    else if IsFence(lines[|lines| - 1]) then []
    else Trailing(lines[..|lines| - 1]) + [lines[|lines| - 1]]
  }

  /** The contents of the sections, concatenated in order. */
  function Concat(sections: seq<Section>): string {
    if sections == [] then "" else Concat(sections[..|sections| - 1]) + sections[|sections| - 1].content
  }

  function CodeCount(sections: seq<Section>): nat {
    if sections == [] then 0
    else CodeCount(sections[..|sections| - 1]) + (if sections[|sections| - 1].kind == Code then 1 else 0)
  }

  predicate TextNonEmpty(sections: seq<Section>) {
    forall k :: 0 <= k < |sections| && sections[k].kind == Text ==> sections[k].content != ""
  }

  lemma {:induction false} ConcatAppend(sections: seq<Section>, s: Section)
    ensures Concat(sections + [s]) == Concat(sections) + s.content
  {
  }

  lemma {:induction false} CodeCountAppend(sections: seq<Section>, s: Section)
    ensures CodeCount(sections + [s]) == CodeCount(sections) + (if s.kind == Code then 1 else 0)
  {
  }

  // ---------------------------------------------------------------------
  // What the scan keeps true, line after line
  // ---------------------------------------------------------------------

  /** Nothing is lost but the fences: the finished sections and the current
      text together hold the non-fence lines read so far. */
  lemma {:induction false} ScanConcat(lines: seq<string>)
    ensures Concat(Scan(lines).sections) + Scan(lines).currentText == Body(lines)
  {
    if lines != [] {
      var init, line := lines[..|lines| - 1], lines[|lines| - 1];
      ScanConcat(init);
      var st := Scan(init);
      if IsFence(line) && !st.inCodeBlock {
        if st.currentText != "" { ConcatAppend(st.sections, Section(Text, st.currentText)); }
      } else if IsFence(line) && st.inCodeBlock {
        ConcatAppend(st.sections, Section(Code, st.currentText));
      }
    }
  }

  /** No finished text section is empty. */
  lemma {:induction false} ScanTextNonEmpty(lines: seq<string>)
    ensures TextNonEmpty(Scan(lines).sections)
  {
    if lines != [] {
      ScanTextNonEmpty(lines[..|lines| - 1]);
    }
  }

  /** The scan is inside a code block exactly when it has met an odd number
      of fences. */
  lemma {:induction false} ScanParity(lines: seq<string>)
    ensures Scan(lines).inCodeBlock <==> FenceCount(lines) % 2 == 1
  {
    if lines != [] {
      ScanParity(lines[..|lines| - 1]);
    }
  }

  /** Every closing fence finishes one code section, empty or not, and no
      other step does. */
  lemma {:induction false} ScanCodeCount(lines: seq<string>)
    ensures CodeCount(Scan(lines).sections) == FenceCount(lines) / 2
  {
    if lines != [] {
      var init, line := lines[..|lines| - 1], lines[|lines| - 1];
      ScanCodeCount(init);
      ScanParity(init);
      var st := Scan(init);
      if IsFence(line) && !st.inCodeBlock {
        if st.currentText != "" { CodeCountAppend(st.sections, Section(Text, st.currentText)); }
      } else if IsFence(line) && st.inCodeBlock {
        CodeCountAppend(st.sections, Section(Code, st.currentText));
      }
    }
  }

  /** The text being built holds exactly the lines after the last fence. */
  lemma {:induction false} ScanCurrentText(lines: seq<string>)
    ensures Scan(lines).currentText == Body(Trailing(lines))
  {
    if lines != [] {
      var init, line := lines[..|lines| - 1], lines[|lines| - 1];
      ScanCurrentText(init);
      if !IsFence(line) {
        var t := Trailing(init) + [line];
        assert t[..|t| - 1] == Trailing(init);
      }
    }
  }

  // ---------------------------------------------------------------------
  // What renderModelResponse promises about the sections
  // ---------------------------------------------------------------------

  /** The fence lines appear in no section: the sections, concatenated, are
      the other lines in order, each followed by a line feed. */
  lemma SectionsConcat(content: string)
    ensures Concat(SectionsOf(content)) == Body(SplitLines(content))
  {
    var st := Scan(SplitLines(content));
    ScanConcat(SplitLines(content));
    if st.currentText != "" {
      ConcatAppend(st.sections, Section(if st.inCodeBlock then Code else Text, st.currentText));
    }
  }

  /** Text sections are never empty (code sections may be). */
  lemma SectionsTextNonEmpty(content: string)
    ensures TextNonEmpty(SectionsOf(content))
  {
    ScanTextNonEmpty(SplitLines(content));
  }

  /** One code section per closed block, even an empty one, plus one for the
      text left inside an unclosed block, if there is any. */
  lemma SectionsCodeCount(content: string)
    ensures var lines := SplitLines(content);
      CodeCount(SectionsOf(content))
      == FenceCount(lines) / 2 + (if FenceCount(lines) % 2 == 1 && Body(Trailing(lines)) != "" then 1 else 0)
  {
    var lines := SplitLines(content);
    var st := Scan(lines);
    ScanCodeCount(lines);
    ScanParity(lines);
    ScanCurrentText(lines);
    if st.currentText != "" {
      CodeCountAppend(st.sections, Section(if st.inCodeBlock then Code else Text, st.currentText));
    }
  }

  /** The text after the last fence, if not empty, ends the list as a code
      section when the fences are unbalanced and as a text section when they
      are balanced; if it is empty nothing is added for it. */
  lemma SectionsLeftover(content: string)
    ensures var lines := SplitLines(content);
      var leftover := Body(Trailing(lines));
      var sections := SectionsOf(content);
      (leftover != "" ==>
        |sections| > 0 &&
        sections[|sections| - 1] == Section(if FenceCount(lines) % 2 == 1 then Code else Text, leftover)) &&
      (leftover == "" ==> sections == Scan(lines).sections)
  {
    var lines := SplitLines(content);
    ScanParity(lines);
    ScanCurrentText(lines);
  }

  // ---------------------------------------------------------------------
  // Two replies worked through
  // ---------------------------------------------------------------------

  lemma StartsWithFence(s: string)
    requires |s| >= |Fence| && s[..|Fence|] == Fence
    ensures Includes(s, Fence)
  {
  }

  /** A block closed right after it opens still yields a code section, with
      empty content. */
  lemma EmptyBlockExample()
    ensures Render("```\n```") == Blocks([Section(Code, "")])
  {
    var lines := SplitLines("```\n```");
    SplitJoinLines(["```", "```"]);
    assert JoinLines(["```", "```"]) == "```\n```";
    assert IsFence("```");
    StartsWithFence("```\n```");
    assert lines[..1] == ["```"] && lines[..1][..0] == [];
  }

  /** Only a line that trims to exactly three backticks is a fence. An opening
      fence with a language tag stays in a text section, and the bare fence
      that was meant to close the block opens one instead, so the text after
      it is shown as code. */
  lemma TaggedFenceExample()
    ensures Render("```js\nf()\n```\nok") == Blocks([Section(Text, "```js\nf()\n"), Section(Code, "ok\n")])
  {
    var content := "```js\nf()\n```\nok";
    StartsWithFence(content);
    var lines := ["```js", "f()", "```", "ok"];
    assert forall k :: 0 <= k < |lines| ==> '\n' !in lines[k];
    SplitJoinLines(lines);
    assert JoinLines(lines[3..]) == "ok";
    assert JoinLines(lines[2..]) == "```\nok" by { assert lines[2..][1..] == lines[3..]; }
    assert JoinLines(lines[1..]) == "f()\n```\nok" by { assert lines[1..][1..] == lines[2..]; }
    assert JoinLines(lines) == content;
    TaggedFenceScan(lines);
  }

  lemma TaggedFenceScan(lines: seq<string>)
    requires lines == ["```js", "f()", "```", "ok"]
    ensures Flush(Scan(lines)) == [Section(Text, "```js\nf()\n"), Section(Code, "ok\n")]
  {
    assert Trim("```js") == "```js";
    assert Trim("f()") == "f()";
    assert Trim("ok") == "ok";
    var s1 := ScanState([], "```js\n", false);
    var s2 := ScanState([], "```js\nf()\n", false);
    var s3 := ScanState([Section(Text, "```js\nf()\n")], "", true);
    var s4 := ScanState([Section(Text, "```js\nf()\n")], "ok\n", true);
    assert lines[..1][..0] == [];
    assert Scan(lines[..1]) == s1;
    assert lines[..2][..1] == lines[..1];
    assert Scan(lines[..2]) == s2;
    assert lines[..3][..2] == lines[..2];
    assert Scan(lines[..3]) == s3;
    assert lines[..3] == lines[..|lines| - 1];
    assert Scan(lines) == s4;
  }
}
