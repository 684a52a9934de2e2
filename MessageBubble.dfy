/** The chat bubble and its fenced-code renderer. The renderer is a two-state
    line scanner (in text, in code) over the message's lines: a fence line
    opens or closes a code block, other lines become paragraphs outside code
    and are buffered inside it, and a block left open at the end is emitted
    anyway. */
module MessageBubble {
  import opened Wrappers
  import opened Text

  /** One display unit of a rendered message. */
  datatype Block = Paragraph(text: string) | Code(lang: string, body: string)

  // ---------------------------------------------------------------------------
  // The fence test: a line matching /^```(?:(\w+))?\s*$/
  // ---------------------------------------------------------------------------

  /** Length of the longest prefix of `s` made of word characters. */
  function WordPrefixLength(s: string): (n: nat)
    ensures n <= |s| && AllWord(s[..n])
    ensures n == |s| || !IsWordChar(s[n])
  {
    if s != [] && IsWordChar(s[0]) then 1 + WordPrefixLength(s[1..]) else 0
  }

  /** The language tag of a fence line, `""` when the fence has none, and
      `None` when the line is not a fence. Because no word character is
      whitespace, the optional `\w+` group can only take every word character
      after the backticks, and what follows it must be whitespace. */
  function FenceTag(line: string): (tag: Option<string>)
    ensures tag.Some? ==> StartsWith(line, "```") && 3 + |tag.value| <= |line| && AllWord(tag.value)
  {
    if |line| >= 3 && line[..3] == "```" then
      var rest := line[3..];
      var n := WordPrefixLength(rest);
      if AllWhitespace(rest[n..]) then Some(rest[..n]) else None
    else None
  }

  predicate IsFence(line: string) {
    FenceTag(line).Some?
  }

  /** A fence is three backticks, its tag, and whitespace only. */
  lemma FenceTagSound(line: string)
    requires IsFence(line)
    ensures var tag := FenceTag(line).value;
      && |line| >= 3 + |tag|
      && line == "```" + tag + line[3 + |tag|..]
      && AllWord(tag)
      && AllWhitespace(line[3 + |tag|..])
  {
    var rest := line[3..];
    var n := WordPrefixLength(rest);
    assert line == line[..3] + rest[..n] + rest[n..];
  }

  lemma {:induction false} WordPrefixOfTagAndSpace(tag: string, ws: string)
    requires AllWord(tag) && AllWhitespace(ws)
    ensures WordPrefixLength(tag + ws) == |tag|
  {
    if tag == [] {
      assert tag + ws == ws;
      assert ws != [] ==> IsJsWhitespace(ws[0]);
    } else {
      assert (tag + ws)[1..] == tag[1..] + ws;
      WordPrefixOfTagAndSpace(tag[1..], ws);
    }
  }

  /** Every line made of three backticks, a word-character tag (possibly
      empty) and whitespace is a fence carrying exactly that tag. */
  lemma FenceTagComplete(tag: string, ws: string)
    requires AllWord(tag) && AllWhitespace(ws)
    ensures FenceTag("```" + tag + ws) == Some(tag)
  {
    var line := "```" + tag + ws;
    assert line[..3] == "```";
    assert line[3..] == tag + ws;
    WordPrefixOfTagAndSpace(tag, ws);
    assert (tag + ws)[..|tag|] == tag;
    assert (tag + ws)[|tag|..] == ws;
  }

  /** Lines that look like fences but are not: a space before the tag, a
      second word after it, a fourth backtick, and too few backticks. */
  lemma NotFenceExamples()
    ensures !IsFence("``` js") && !IsFence("```js x") && !IsFence("````")
    ensures !IsFence("") && !IsFence("``")
  {
    assert "``` js"[3..] == " js" && WordPrefixLength(" js") == 0 && " js"[1] == 'j';
    assert "```js x"[3..] == "js x";
    assert WordPrefixLength("x") == 1 && WordPrefixLength(" x") == 0;
    assert "js x"[1..] == "s x" && "s x"[1..] == " x";
    assert WordPrefixLength("js x") == 2 && "js x"[2..][1] == 'x';
    assert "````"[3..] == "`" && WordPrefixLength("`") == 0;
  }

  /** Fences and the tags they carry: none, a plain tag, and a tag followed
      by a space and a carriage return, which is whitespace, so a CRLF fence
      still counts. */
  lemma FenceTagExamples()
    ensures FenceTag("```") == Some("") && FenceTag("```js") == Some("js")
    ensures FenceTag("```python \r") == Some("python")
  {
    FenceTagComplete("", "");
    assert "```" + "" + "" == "```";
    FenceTagComplete("js", "");
    assert "```" + "js" + "" == "```js";
    FenceTagComplete("python", " \r");
    assert "```" + "python" + " \r" == "```python \r";
  }

  // ---------------------------------------------------------------------------
  // The scanner, as a specification
  // ---------------------------------------------------------------------------

  /** The renderer's variables: the blocks emitted so far, whether a fence is
      open, the open fence's language and the lines buffered since it. */
  datatype Scanner = Scanner(parts: seq<Block>, inCode: bool, codeLang: string, codeBuffer: seq<string>)

  const Start := Scanner([], false, "", [])

  /** What one line does to the scanner. */
  function Step(s: Scanner, line: string): Scanner {
    match FenceTag(line)
    case Some(tag) =>
      if !s.inCode then Scanner(s.parts, true, tag, [])
      else Scanner(s.parts + [Code(s.codeLang, Join(s.codeBuffer, '\n'))], false, "", [])
    case None =>
      if s.inCode then s.(codeBuffer := s.codeBuffer + [line])
      else s.(parts := s.parts + [Paragraph(line)])
  }

  /** The scanner after the lines, taken in order, starting from `s`. */
  function Run(s: Scanner, lines: seq<string>): Scanner
    decreases |lines|
  {
    if lines == [] then s else Step(Run(s, lines[..|lines| - 1]), lines[|lines| - 1])
  }

  /** The blocks once the input is exhausted: an open fence still yields its
      code block. */
  function Finish(s: Scanner): seq<Block> {
    if s.inCode then s.parts + [Code(s.codeLang, Join(s.codeBuffer, '\n'))] else s.parts
  }

  /** `(text || "").split("\n")`: missing content reads as the empty string. */
  function LinesOf(content: Option<string>): seq<string> {
    Split(content.GetOr(""), '\n')
  }

  /** The blocks a message's content renders to. */
  function Render(content: Option<string>): seq<Block> {
    Finish(Run(Start, LinesOf(content)))
  }

  // ---------------------------------------------------------------------------
  // The renderer as the source runs it
  // ---------------------------------------------------------------------------

  /** Scans the lines once, updating the scanner's variables in place. */
  method RenderWithCodeBlocks(content: Option<string>) returns (parts: seq<Block>)
    ensures parts == Render(content)
  {
    var lines := Split(content.GetOr(""), '\n');
    var inCode := false;
    var codeLang := "";
    var codeBuffer: seq<string> := [];
    parts := [];
    for idx := 0 to |lines|
      invariant Scanner(parts, inCode, codeLang, codeBuffer) == Run(Start, lines[..idx])
    {
      var line := lines[idx];
      var fenceMatch := FenceTag(line);
      if fenceMatch.Some? {
        if !inCode {
          inCode := true;
          codeLang := fenceMatch.value;
          codeBuffer := [];
        } else {
          parts := parts + [Code(codeLang, Join(codeBuffer, '\n'))];
          inCode := false;
          codeLang := "";
          codeBuffer := [];
        }
      } else if inCode {
        codeBuffer := codeBuffer + [line];
      } else {
        parts := parts + [Paragraph(line)];
      }
      assert lines[..idx + 1][..idx] == lines[..idx];
    }
    assert lines[..|lines|] == lines;
    if inCode {
      parts := parts + [Code(codeLang, Join(codeBuffer, '\n'))];
    }
  }

  // ---------------------------------------------------------------------------
  // A declarative account of the lines
  // ---------------------------------------------------------------------------

  /** Number of fence lines. */
  function FenceCount(lines: seq<string>): nat
    decreases |lines|
  {
    if lines == [] then 0
    else FenceCount(lines[..|lines| - 1]) + (if IsFence(lines[|lines| - 1]) then 1 else 0)
  }

  /** Index of the last fence line, or -1 when there is none. */
  function LastFence(lines: seq<string>): (k: int)
    ensures -1 <= k < |lines|
    ensures k >= 0 ==> IsFence(lines[k])
    ensures forall j | k < j < |lines| :: !IsFence(lines[j])
    ensures k == -1 <==> FenceCount(lines) == 0
    decreases |lines|
  {
    if lines == [] then -1
    else if IsFence(lines[|lines| - 1]) then |lines| - 1
    else LastFence(lines[..|lines| - 1])
  }

  /** The lines that are shown as paragraphs: in order, every line that is not
      a fence and is preceded by an even number of fence lines. */
  function ParagraphLines(lines: seq<string>): seq<string>
    decreases |lines|
  {
    if lines == [] then []
    else
      var init, last := lines[..|lines| - 1], lines[|lines| - 1];
      ParagraphLines(init) + (if !IsFence(last) && FenceCount(init) % 2 == 0 then [last] else [])
  }

  /** The texts of the paragraph blocks, in order. */
  function Paragraphs(blocks: seq<Block>): seq<string>
    decreases |blocks|
  {
    if blocks == [] then []
    else
      var last := blocks[|blocks| - 1];
      Paragraphs(blocks[..|blocks| - 1]) + (if last.Paragraph? then [last.text] else [])
  }

  lemma ParagraphsSnoc(blocks: seq<Block>, b: Block)
    ensures Paragraphs(blocks + [b]) == Paragraphs(blocks) + (if b.Paragraph? then [b.text] else [])
  {
    assert (blocks + [b])[..|blocks|] == blocks;
  }

  /** No code body contains a fence line. */
  predicate CodeBodiesFenceFree(blocks: seq<Block>) {
    forall k | 0 <= k < |blocks| && blocks[k].Code? ::
      forall l | l in Split(blocks[k].body, '\n') :: !IsFence(l)
  }

  // ---------------------------------------------------------------------------
  // What the scanner computes
  // ---------------------------------------------------------------------------

  /** After any prefix of the input: the scanner is in code exactly when an odd
      number of fences has been seen; then the open block's language is the tag
      of the last fence and its buffer holds every line after that fence, and
      otherwise both are reset. */
  lemma {:induction false} ScanState(lines: seq<string>)
    ensures var s := Run(Start, lines);
      && (s.inCode <==> FenceCount(lines) % 2 == 1)
      && (!s.inCode ==> s.codeLang == "" && s.codeBuffer == [])
      && (s.inCode ==> 0 <= LastFence(lines)
                       && s.codeLang == FenceTag(lines[LastFence(lines)]).value
                       && s.codeBuffer == lines[LastFence(lines) + 1..])
    decreases |lines|
  {
    if lines != [] {
      var n := |lines|;
      var init, last := lines[..n - 1], lines[n - 1];
      ScanState(init);
      var s0, s := Run(Start, init), Run(Start, lines);
      assert s == Step(s0, last);
      assert FenceCount(lines) == FenceCount(init) + (if IsFence(last) then 1 else 0);
      if IsFence(last) {
        assert LastFence(lines) == n - 1;
        if !s0.inCode {
          assert s.codeLang == FenceTag(last).value && s.codeBuffer == [];
          assert lines[n..] == [];
        }
      } else {
        assert LastFence(lines) == LastFence(init);
        if s0.inCode {
          var k := LastFence(init);
          assert s.codeBuffer == s0.codeBuffer + [last];
          assert lines[k + 1..] == init[k + 1..] + [last];
        }
      }
    }
  }

  /** After any prefix of the input, the paragraphs emitted are exactly the
      paragraph lines, and one block has been emitted per paragraph line and
      per closed fence pair. */
  lemma {:induction false} ScanParts(lines: seq<string>)
    ensures var s := Run(Start, lines);
      && Paragraphs(s.parts) == ParagraphLines(lines)
      && |s.parts| == |ParagraphLines(lines)| + FenceCount(lines) / 2
    decreases |lines|
  {
    if lines != [] {
      var n := |lines|;
      var init, last := lines[..n - 1], lines[n - 1];
      ScanParts(init);
      ScanState(init);
      var s0, s := Run(Start, init), Run(Start, lines);
      assert s == Step(s0, last);
      assert FenceCount(lines) == FenceCount(init) + (if IsFence(last) then 1 else 0);
      assert ParagraphLines(lines) == ParagraphLines(init)
        + (if !IsFence(last) && FenceCount(init) % 2 == 0 then [last] else []);
      if IsFence(last) {
        if s0.inCode {
          var b := Code(s0.codeLang, Join(s0.codeBuffer, '\n'));
          assert s.parts == s0.parts + [b];
          ParagraphsSnoc(s0.parts, b);
        } else {
          assert s.parts == s0.parts;
        }
      } else if s0.inCode {
        assert s.parts == s0.parts;
      } else {
        assert s.parts == s0.parts + [Paragraph(last)];
        ParagraphsSnoc(s0.parts, Paragraph(last));
      }
    }
  }

  /** When the lines hold no separator, every code block emitted so far has a
      body whose lines are not fences. */
  lemma {:induction false} ScanCodeBodies(lines: seq<string>)
    requires forall k | 0 <= k < |lines| :: '\n' !in lines[k]
    ensures CodeBodiesFenceFree(Run(Start, lines).parts)
    ensures var s := Run(Start, lines);
      s.inCode ==> forall l | l in Split(Join(s.codeBuffer, '\n'), '\n') :: !IsFence(l)
    decreases |lines|
  {
    var s := Run(Start, lines);
    if lines != [] {
      var n := |lines|;
      var init, last := lines[..n - 1], lines[n - 1];
      ScanCodeBodies(init);
      ScanState(init);
      var s0 := Run(Start, init);
      assert s == Step(s0, last);
      if s0.inCode && IsFence(last) {
        assert s.parts == s0.parts + [Code(s0.codeLang, Join(s0.codeBuffer, '\n'))];
      }
    }
    if s.inCode {
      BufferBodyFenceFree(lines);
    }
  }

  /** The body made of the lines after the last fence has no fence line. */
  lemma BufferBodyFenceFree(lines: seq<string>)
    requires forall k | 0 <= k < |lines| :: '\n' !in lines[k]
    requires FenceCount(lines) % 2 == 1
    ensures var s := Run(Start, lines);
      s.inCode && forall l | l in Split(Join(s.codeBuffer, '\n'), '\n') :: !IsFence(l)
  {
    var k := LastFence(lines);
    OpenBuffer(lines);
    PlainTail(lines, k, Run(Start, lines).codeBuffer);
    JoinedPlainLines(Run(Start, lines).codeBuffer);
  }

  /** With an odd number of fences the block is open and buffers exactly the
      lines after the last fence. */
  lemma OpenBuffer(lines: seq<string>)
    requires FenceCount(lines) % 2 == 1
    ensures Run(Start, lines).inCode && Run(Start, lines).codeBuffer == lines[LastFence(lines) + 1..]
  {
    ScanState(lines);
  }

  /** The lines after the last fence hold neither a line break nor a fence. */
  lemma PlainTail(lines: seq<string>, k: int, tail: seq<string>)
    requires -1 <= k < |lines| && tail == lines[k + 1..]
    requires forall j | 0 <= j < |lines| :: '\n' !in lines[j]
    requires forall j | k < j < |lines| :: !IsFence(lines[j])
    ensures forall j | 0 <= j < |tail| :: '\n' !in tail[j] && !IsFence(tail[j])
  {
    forall j | 0 <= j < |tail| ensures '\n' !in tail[j] && !IsFence(tail[j]) {
      assert tail[j] == lines[k + 1 + j];
    }
  }

  /** Joining lines that hold neither a line break nor a fence, and splitting
      them again, yields no fence. */
  lemma JoinedPlainLines(buf: seq<string>)
    requires forall j | 0 <= j < |buf| :: '\n' !in buf[j] && !IsFence(buf[j])
    ensures forall l | l in Split(Join(buf, '\n'), '\n') :: !IsFence(l)
  {
    if buf == [] {
      assert Join(buf, '\n') == "";
      assert Split("", '\n') == [""];
      assert !IsFence("");
    } else {
      SplitJoin(buf, '\n');
    }
  }


  // ---------------------------------------------------------------------------
  // What the renderer promises
  // ---------------------------------------------------------------------------

  /** The number of blocks is the number of paragraph lines, plus one per
      closed fence pair, plus one when a fence is left open. */
  lemma RenderCount(content: Option<string>)
    ensures var lines := LinesOf(content);
      |Render(content)| == |ParagraphLines(lines)| + FenceCount(lines) / 2 + FenceCount(lines) % 2
  {
    ScanState(LinesOf(content));
    ScanParts(LinesOf(content));
  }

  /** The paragraphs shown are exactly the paragraph lines, in input order,
      empty lines included; so no fence line is ever shown as a paragraph. */
  lemma RenderParagraphs(content: Option<string>)
    ensures Paragraphs(Render(content)) == ParagraphLines(LinesOf(content))
    ensures forall p | p in Paragraphs(Render(content)) :: !IsFence(p)
  {
    var lines := LinesOf(content);
    var s := Run(Start, lines);
    ScanParts(lines);
    if s.inCode {
      ParagraphsSnoc(s.parts, Code(s.codeLang, Join(s.codeBuffer, '\n')));
    }
    ParagraphLinesAreNotFences(lines);
  }

  lemma {:induction false} ParagraphLinesAreNotFences(lines: seq<string>)
    ensures forall p | p in ParagraphLines(lines) :: !IsFence(p)
    decreases |lines|
  {
    if lines != [] {
      ParagraphLinesAreNotFences(lines[..|lines| - 1]);
    }
  }

  /** No code block's body contains a fence line. */
  lemma RenderCodeBodies(content: Option<string>)
    ensures CodeBodiesFenceFree(Render(content))
  {
    var lines := LinesOf(content);
    var s := Run(Start, lines);
    ScanCodeBodies(lines);
    if s.inCode {
      var blocks := Render(content);
      forall k | 0 <= k < |blocks| && blocks[k].Code?
        ensures forall l | l in Split(blocks[k].body, '\n') :: !IsFence(l)
      {
        if k < |s.parts| {
          assert blocks[k] == s.parts[k];
        }
      }
    }
  }

  /** When the input ends inside a fence, nothing fails: the last block is a
      code block with the language of the last (opening) fence and the lines
      after it, joined by newlines. */
  lemma RenderUnclosed(content: Option<string>)
    requires FenceCount(LinesOf(content)) % 2 == 1
    ensures var lines := LinesOf(content);
      var k := LastFence(lines);
      var blocks := Render(content);
      && 0 <= k
      && |blocks| >= 1
      && blocks[|blocks| - 1] == Code(FenceTag(lines[k]).value, Join(lines[k + 1..], '\n'))
  {
    ScanState(LinesOf(content));
  }

  /** A closing fence emits a code block whose language is that of the fence
      it closes, whatever tag the closing line carries, and whose body is the
      lines between the two fences. */
  lemma ClosingFence(lines: seq<string>)
    requires |lines| >= 1 && IsFence(lines[|lines| - 1])
    requires FenceCount(lines) % 2 == 0
    ensures var init := lines[..|lines| - 1];
      var k := LastFence(init);
      var parts := Run(Start, lines).parts;
      && 0 <= k
      && |parts| >= 1
      && parts[|parts| - 1] == Code(FenceTag(lines[k]).value, Join(lines[k + 1..|lines| - 1], '\n'))
  {
    var n := |lines|;
    var init, last := lines[..n - 1], lines[n - 1];
    ScanState(init);
    var s0, s := Run(Start, init), Run(Start, lines);
    assert s == Step(s0, last);
    assert FenceCount(lines) == FenceCount(init) + 1;
    assert s0.inCode;
    var k := LastFence(init);
    assert s.parts == s0.parts + [Code(s0.codeLang, Join(s0.codeBuffer, '\n'))];
    assert init[k + 1..] == lines[k + 1..n - 1];
  }

  /** Missing or empty content renders as one empty paragraph. */
  lemma RenderEmpty()
    ensures Render(None) == [Paragraph("")]
    ensures Render(Some("")) == [Paragraph("")]
  {
    assert LinesOf(None) == [""];
    assert [""][..0] == [];
    assert !IsFence("");
  }

  // ---------------------------------------------------------------------------
  // Lemmas for reasoning about a known sequence of lines
  // ---------------------------------------------------------------------------

  /** Scanning only appends blocks: those already emitted stay in place. */
  lemma {:induction false} RunExtends(s: Scanner, lines: seq<string>)
    ensures s.parts <= Run(s, lines).parts
    decreases |lines|
  {
    if lines != [] {
      RunExtends(s, lines[..|lines| - 1]);
    }
  }

  /** The blocks emitted for any prefix of the lines open the rendered
      output, in the same order and at the same indices. */
  lemma EmittedStays(content: Option<string>, i: nat)
    requires i <= |LinesOf(content)|
    ensures Run(Start, LinesOf(content)[..i]).parts <= Render(content)
  {
    var lines := LinesOf(content);
    assert lines == lines[..i] + lines[i..];
    RunAppend(Start, lines[..i], lines[i..]);
    RunExtends(Run(Start, lines[..i]), lines[i..]);
  }

  /** The code block closed by the fence at line `j` keeps, in the rendered
      output, the index it was emitted at, right after the blocks of the lines
      before it; its language is that of the opening fence and its body the
      lines between the two fences. */
  lemma ClosedBlockStays(content: Option<string>, j: nat)
    requires j < |LinesOf(content)| && IsFence(LinesOf(content)[j])
    requires FenceCount(LinesOf(content)[..j + 1]) % 2 == 0
    ensures var lines := LinesOf(content);
      var k := LastFence(lines[..j]);
      var n := |Run(Start, lines[..j + 1]).parts|;
      && 0 <= k < j
      && 1 <= n <= |Render(content)|
      && Render(content)[n - 1] == Code(FenceTag(lines[k]).value, Join(lines[k + 1..j], '\n'))
  {
    var lines := LinesOf(content);
    var prefix := lines[..j + 1];
    assert prefix[..j] == lines[..j];
    ClosingFence(prefix);
    var k := LastFence(lines[..j]);
    assert prefix[k] == lines[k];
    assert prefix[k + 1..j] == lines[k + 1..j];
    EmittedStays(content, j + 1);
  }

  /** Scanning two runs of lines is scanning the first, then the second. */
  lemma {:induction false} RunAppend(s: Scanner, xs: seq<string>, ys: seq<string>)
    ensures Run(s, xs + ys) == Run(Run(s, xs), ys)
    decreases |ys|
  {
    if ys == [] {
      assert xs + ys == xs;
    } else {
      var zs := xs + ys;
      assert zs[..|zs| - 1] == xs + ys[..|ys| - 1];
      RunAppend(s, xs, ys[..|ys| - 1]);
    }
  }

  /** Inside a fence, lines that are not fences are only buffered. */
  lemma {:induction false} RunBuffers(s: Scanner, lines: seq<string>)
    requires s.inCode
    requires forall l | l in lines :: !IsFence(l)
    ensures Run(s, lines) == s.(codeBuffer := s.codeBuffer + lines)
    decreases |lines|
  {
    if lines == [] {
      assert s.codeBuffer + lines == s.codeBuffer;
    } else {
      var init, last := lines[..|lines| - 1], lines[|lines| - 1];
      assert last in lines;
      assert forall l | l in init :: l in lines;
      RunBuffers(s, init);
      assert s.codeBuffer + init + [lines[|lines| - 1]] == s.codeBuffer + lines;
    }
  }

  // ---------------------------------------------------------------------------
  // The bubble around the blocks
  // ---------------------------------------------------------------------------

  datatype Bubble = Bubble(cssClass: string, ariaLabel: string, blocks: seq<Block>)

  /** The bubble for a message: the role defaults to "assistant", and every
      role other than "user" is styled and labelled as the assistant's. */
  function MessageBubble(role: Option<string>, content: Option<string>): (b: Bubble)
    ensures b.ariaLabel in {"User message", "Assistant message"}
    ensures b.ariaLabel == "User message" <==> role == Some("user")
    ensures b.cssClass == "bubble bubble-user" <==> role == Some("user")
    ensures b.blocks == Render(content)
  {
    var isUser := role.GetOr("assistant") == "user";
    var bubbleClass := if isUser then "bubble bubble-user" else "bubble bubble-assistant";
    var ariaLabel := if isUser then "User message" else "Assistant message";
    Bubble(bubbleClass, ariaLabel, Render(content))
  }
}
