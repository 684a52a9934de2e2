/** The conversation controller: the message list, the "request outstanding"
    flag and the last error, and the submission that moves them from start
    to settle. */
module App {
  import opened Wrappers
  import opened Text
  import opened Api
  import MessageBubble

  datatype Role = User | Assistant

  /** A chat message; the list only ever grows at its end. */
  datatype Message = Message(role: Role, content: string)

  const Greeting := Message(Assistant, "Hello! I\U{2019}m your AI Copilot. Choose a mode and tell me how I can help.")
  const NoContentPlaceholder := "(No content returned)"
  const UnexpectedError := "Unexpected error occurred."
  const FailurePreamble := "Sorry, I couldn't process that request."

  /** The role as the bubble receives it. */
  function RoleName(role: Role): string {
    match role
    case User => "user"
    case Assistant => "assistant"
  }

  /** `e?.message || "Unexpected error occurred."`. */
  function ErrorText(e: ApiError): (text: string)
    ensures text != ""
    ensures text == e.message || (e.message == "" && text == UnexpectedError)
  {
    if e.message != "" then e.message else UnexpectedError
  }

  /** A preamble line, a blank line, and `msg` inside an untagged fence. */
  function FencedEcho(preamble: string, msg: string): string {
    preamble + "\n\n```\n" + msg + "\n```"
  }

  /** The assistant turn that reports a failure. */
  function FailureEcho(msg: string): string {
    FencedEcho(FailurePreamble, msg)
  }

  /** The assistant turn for a settled call; it always has something to show. */
  function AssistantReply(outcome: Result<Option<Payload>, ApiError>): (m: Message)
    ensures m.role == Assistant && m.content != ""
  {
    match outcome
    case Success(resp) =>
      Message(Assistant, if resp.Some? && Truthy(resp.value.content) then resp.value.content.value
                         else NoContentPlaceholder)
    case Failure(e) =>
      Message(Assistant, FailureEcho(ErrorText(e)))
  }

  /** The greeting, then user and assistant turns in strict alternation:
      every user message is answered by exactly one assistant message. */
  predicate Alternating(messages: seq<Message>) {
    && |messages| % 2 == 1
    && messages[0] == Greeting
    && forall i | 1 <= i < |messages| :: messages[i].role == (if i % 2 == 1 then User else Assistant)
  }

  /** One submission keeps the alternation. */
  lemma AlternatingExtend(messages: seq<Message>, question: string, reply: Message)
    requires Alternating(messages) && reply.role == Assistant
    ensures Alternating(messages + [Message(User, question), reply])
  {
    var ms := messages + [Message(User, question), reply];
    var n := |messages|;
    forall i | 1 <= i < |ms| ensures ms[i].role == (if i % 2 == 1 then User else Assistant) {
      if i < n {
        assert ms[i] == messages[i];
      }
    }
  }

  /** Each turn is shown with the bubble of its role. */
  lemma BubbleFollowsRole(m: Message)
    ensures var b := MessageBubble.MessageBubble(Some(RoleName(m.role)), Some(m.content));
      && (m.role == User <==> b.ariaLabel == "User message")
      && b.blocks == MessageBubble.Render(Some(m.content))
  {
  }

  /** Splitting at the first separator of `a + [sep] + b`, where `a` holds
      no separator, gives `a` and the pieces of `b`. */
  lemma SplitFirst(a: string, b: string)
    requires '\n' !in a
    ensures Split(a + ['\n'] + b, '\n') == [a] + Split(b, '\n')
  {
    SplitJoin([a], '\n');
    SplitAround(a, b, '\n');
  }

  /** The lines after the preamble: an empty line, the opening fence, the
      message's lines and the closing fence. */
  lemma FencedEchoTail(msg: string)
    ensures Split("" + ['\n'] + ("```" + ['\n'] + (msg + ['\n'] + "```")), '\n')
            == ["", "```"] + Split(msg, '\n') + ["```"]
  {
    var fence := "```";
    var t3 := msg + ['\n'] + fence;
    SplitJoin([fence], '\n');
    SplitAround(msg, fence, '\n');
    SplitFirst(fence, t3);
    SplitFirst("", fence + ['\n'] + t3);
  }

  /** The lines of a fenced echo: the preamble, an empty line, the opening
      fence, the lines of the message, and the closing fence. */
  lemma FencedEchoLines(preamble: string, msg: string)
    requires '\n' !in preamble
    ensures MessageBubble.LinesOf(Some(FencedEcho(preamble, msg)))
            == [preamble, "", "```"] + Split(msg, '\n') + ["```"]
  {
    var t1 := "" + ['\n'] + ("```" + ['\n'] + (msg + ['\n'] + "```"));
    assert FencedEcho(preamble, msg) == preamble + ['\n'] + t1;
    FencedEchoTail(msg);
    SplitFirst(preamble, t1);
  }

  /** Scanning a plain preamble, an empty line and an untagged opening fence
      leaves two paragraphs and an open, empty, untagged code block. */
  lemma FencedEchoHead(preamble: string)
    requires !MessageBubble.IsFence(preamble)
    ensures MessageBubble.Run(MessageBubble.Start, [preamble, "", "```"])
            == MessageBubble.Scanner([MessageBubble.Paragraph(preamble), MessageBubble.Paragraph("")], true, "", [])
  {
    var s0 := MessageBubble.Start;
    var head := [preamble, "", "```"];
    MessageBubble.FenceTagComplete("", "");
    assert "```" + "" + "" == "```";
    assert MessageBubble.FenceTag("") == None;
    assert MessageBubble.FenceTag(preamble) == None;
    assert [preamble][..0] == [];
    assert MessageBubble.Run(s0, []) == s0;
    var s1 := MessageBubble.Run(s0, [preamble]);
    assert s1 == MessageBubble.Step(s0, preamble);
    assert s1 == MessageBubble.Scanner([MessageBubble.Paragraph(preamble)], false, "", []);
    assert [preamble, ""][..1] == [preamble];
    var s2 := MessageBubble.Run(s0, [preamble, ""]);
    assert s2 == MessageBubble.Step(s1, "");
    assert s2 == MessageBubble.Scanner([MessageBubble.Paragraph(preamble), MessageBubble.Paragraph("")], false, "", []);
    assert head[..2] == [preamble, ""];
    assert MessageBubble.Run(s0, head) == MessageBubble.Step(s2, "```");
  }

  /** Up to the closing fence, the message's lines only fill the open
      code block. */
  lemma FencedEchoBody(preamble: string, msg: string)
    requires !MessageBubble.IsFence(preamble)
    requires forall l | l in Split(msg, '\n') :: !MessageBubble.IsFence(l)
    ensures MessageBubble.Run(MessageBubble.Start, [preamble, "", "```"] + Split(msg, '\n'))
            == MessageBubble.Scanner([MessageBubble.Paragraph(preamble), MessageBubble.Paragraph("")],
                                     true, "", Split(msg, '\n'))
  {
    var head := [preamble, "", "```"];
    var body := Split(msg, '\n');
    FencedEchoHead(preamble);
    MessageBubble.RunAppend(MessageBubble.Start, head, body);
    MessageBubble.RunBuffers(MessageBubble.Run(MessageBubble.Start, head), body);
  }

  /** An untagged fence closes an open untagged block into a code block. */
  lemma CloseUntagged(parts: seq<MessageBubble.Block>, buffer: seq<string>)
    ensures MessageBubble.Run(MessageBubble.Scanner(parts, true, "", buffer), ["```"])
            == MessageBubble.Scanner(parts + [MessageBubble.Code("", Join(buffer, '\n'))], false, "", [])
  {
    var s := MessageBubble.Scanner(parts, true, "", buffer);
    MessageBubble.FenceTagComplete("", "");
    assert "```" + "" + "" == "```";
    assert ["```"][..0] == [];
    assert MessageBubble.Run(s, []) == s;
  }

  /** A fenced echo of a plain preamble and a message without fence lines
      renders as the preamble, an empty paragraph, and one untagged code
      block holding the message. */
  lemma FencedEchoRenders(preamble: string, msg: string)
    requires '\n' !in preamble && !MessageBubble.IsFence(preamble)
    requires forall l | l in Split(msg, '\n') :: !MessageBubble.IsFence(l)
    ensures MessageBubble.Render(Some(FencedEcho(preamble, msg)))
            == [MessageBubble.Paragraph(preamble), MessageBubble.Paragraph(""), MessageBubble.Code("", msg)]
  {
    var upToClose := [preamble, "", "```"] + Split(msg, '\n');
    var parts := [MessageBubble.Paragraph(preamble), MessageBubble.Paragraph("")];
    FencedEchoLines(preamble, msg);
    FencedEchoBody(preamble, msg);
    MessageBubble.RunAppend(MessageBubble.Start, upToClose, ["```"]);
    CloseUntagged(parts, Split(msg, '\n'));
    JoinSplit(msg, '\n');
  }

  /** The failure preamble is one line and not a fence. */
  lemma FailurePreamblePlain()
    ensures '\n' !in FailurePreamble && !MessageBubble.IsFence(FailurePreamble)
  {
    var p := FailurePreamble;
    assert p[..3] == "Sor" by { assert p[0] == 'S' && p[1] == 'o' && p[2] == 'r'; }
    assert forall i | 0 <= i < |p| :: p[i] != '\n';
  }

  /** A failure whose message has no fence line is shown as the apology, an
      empty paragraph, and the message verbatim in one untagged code block. */
  lemma FailureEchoRenders(msg: string)
    requires forall l | l in Split(msg, '\n') :: !MessageBubble.IsFence(l)
    ensures MessageBubble.Render(Some(FailureEcho(msg)))
            == [MessageBubble.Paragraph(FailurePreamble), MessageBubble.Paragraph(""), MessageBubble.Code("", msg)]
  {
    FailurePreamblePlain();
    FencedEchoRenders(FailurePreamble, msg);
  }

  /** Which operation a mode selects, and what that operation promises:
      "generate" and "explain" have their own, anything else is "debug". */
  ghost predicate DispatchContract(mode: string, text: string, env: Environment, fetch: FetchOutcome,
                                   outcome: Result<Option<Payload>, ApiError>, sent: Option<Request>)
  {
    if mode == "generate" then
      ValidatedPostContract(env, Some(text), "Prompt is required.", "/generate",
                            GenerateBody(text, None, None, None), fetch, outcome, sent)
    else if mode == "explain" then
      ValidatedPostContract(env, Some(text), "Code is required.", "/explain",
                            ExplainBody(text, None, None, None), fetch, outcome, sent)
    else
      ValidatedPostContract(env, Some(text), "Code is required.", "/debug",
                            DebugBody(text, None, None, None, None), fetch, outcome, sent)
  }

  /** The call `handleSubmit` makes: the text goes in the field the mode's
      operation reads, with no other option set. */
  method Dispatch(mode: string, text: string, env: Environment, fetch: FetchOutcome)
    returns (outcome: Result<Option<Payload>, ApiError>, sent: Option<Request>)
    ensures DispatchContract(mode, text, env, fetch, outcome, sent)
    ensures outcome.Failure? ==> outcome.error.message != ""
  {
    if mode == "generate" {
      outcome, sent := PostGenerate(env, Some(text), None, None, None, fetch);
    } else if mode == "explain" {
      outcome, sent := PostExplain(env, Some(text), None, None, None, fetch);
    } else {
      outcome, sent := PostDebug(env, Some(text), None, None, None, None, fetch);
    }
  }

  class Conversation {
    var messages: seq<Message>
    var isSending: bool
    var error: string

    /** Settled, the turns alternate; while a request is outstanding, the
        user's turn is shown and its answer has not arrived yet. */
    ghost predicate Valid()
      reads this
    {
      if isSending then
        && |messages| >= 2
        && Alternating(messages[..|messages| - 1])
        && messages[|messages| - 1].role == User
      else
        Alternating(messages)
    }

    /** The initial state: the greeting alone, nothing outstanding, no error. */
    constructor ()
      ensures Valid()
      ensures messages == [Greeting] && !isSending && error == ""
    {
      messages := [Greeting];
      isSending := false;
      error := "";
    }

    /** The start of a submission: the error is cleared, the request is marked
        outstanding, and the user's message is shown before any answer. */
    method BeginSubmit(text: string)
      requires Valid() && !isSending
      modifies this
      ensures Valid()
      ensures error == "" && isSending
      ensures messages == old(messages) + [Message(User, text)]
    {
      error := "";
      isSending := true;
      messages := messages + [Message(User, text)];
      assert messages[..|messages| - 1] == old(messages);
    }

    /** The end of a submission: one assistant message, the error recorded on
        failure, and nothing outstanding. */
    method Settle(outcome: Result<Option<Payload>, ApiError>)
      requires Valid() && isSending
      modifies this
      ensures Valid()
      ensures messages == old(messages) + [AssistantReply(outcome)]
      ensures error == (if outcome.Failure? then ErrorText(outcome.error) else old(error))
      ensures !isSending
    {
      ghost var asked := messages[..|messages| - 1];
      ghost var question := messages[|messages| - 1];
      assert messages == asked + [Message(User, question.content)];
      var reply := AssistantReply(outcome);
      if outcome.Failure? {
        error := ErrorText(outcome.error);
      }
      messages := messages + [reply];
      isSending := false;
      AlternatingExtend(asked, question.content, reply);
    }

    /** `handleSubmit`: sends the text to the operation the mode selects
        ("generate", "explain", anything else is "debug") and records exactly
        one user turn and one assistant turn, leaving earlier turns alone. The
        banner shows the call's own message, which is never empty. */
    method HandleSubmit(mode: string, text: string, env: Environment, fetch: FetchOutcome)
      returns (outcome: Result<Option<Payload>, ApiError>, sent: Option<Request>)
      requires Valid() && !isSending
      modifies this
      ensures Valid()
      ensures messages == old(messages) + [Message(User, text), AssistantReply(outcome)]
      ensures |messages| == |old(messages)| + 2 && messages[..|old(messages)|] == old(messages)
      ensures !isSending
      ensures outcome.Failure? ==> error == outcome.error.message && error != ""
      ensures outcome.Success? ==> error == ""
      ensures DispatchContract(mode, text, env, fetch, outcome, sent)
    {
      ghost var before := messages;
      BeginSubmit(text);
      outcome, sent := Dispatch(mode, text, env, fetch);
      var reply := AssistantReply(outcome);
      Settle(outcome);
      assert messages == before + [Message(User, text), reply];
      assert outcome.Failure? ==> ErrorText(outcome.error) == outcome.error.message;
    }
  }
}
