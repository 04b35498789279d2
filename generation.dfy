/** The response generator `genereer_antwoord`: it renders the conversation
    as ChatML-style pieces, joins them into one prompt, refuses a prompt of
    3072 tokens or more, and otherwise opens the remote stream. */
module Generation {
  import opened Text
  import opened Wrappers

  /** Who wrote a message. The conversation only ever holds these two roles. */
  datatype Role = User | Assistant

  /** One entry of the conversation, a `{role, content}` record. */
  datatype Message = Message(role: Role, content: string)

  const EndMarker: string := "<|im_end|>"
  const UserHead: string := "<|im_start|>user\n"
  const AssistantHead: string := "<|im_start|>assistant\n"
  /** The open assistant marker that asks the model to continue. */
  const OpenAssistant: string := "<|im_start|>assistant"

  /** The start marker, the role's tag and a newline: `user` for the user
      role, and `assistant` for every other role. */
  function Head(role: Role): string
  {
    if role == User then UserHead else AssistantHead
  }

  /** How one message appears in the prompt. */
  function Render(m: Message): string
  {
    Head(m.role) + m.content + EndMarker
  }

  /** Reads a rendered message back: its head fixes the tag, and the content
      is whatever lies between the head and the closing marker. */
  function ParseRendered(s: string): Option<Message>
  {
    if |UserHead| + |EndMarker| <= |s| && s[..|UserHead|] == UserHead && s[|s| - |EndMarker|..] == EndMarker then
      Some(Message(User, s[|UserHead|..|s| - |EndMarker|]))
    else if |AssistantHead| + |EndMarker| <= |s| && s[..|AssistantHead|] == AssistantHead && s[|s| - |EndMarker|..] == EndMarker then
      Some(Message(Assistant, s[|AssistantHead|..|s| - |EndMarker|]))
    else
      None
  }

  /** Rendering loses nothing: the rendered text gives back the role and the
      exact content, whatever markers the content itself contains. */
  lemma RenderRoundTrip(m: Message)
    ensures ParseRendered(Render(m)) == Some(m)
  {
    var s := Render(m);
    if m.role == User {
      assert s == UserHead + m.content + EndMarker;
      assert s[..|UserHead|] == UserHead;
      assert s[|s| - |EndMarker|..] == EndMarker;
      assert s[|UserHead|..|s| - |EndMarker|] == m.content;
    } else {
      assert s == AssistantHead + m.content + EndMarker;
      assert s[..|AssistantHead|] == AssistantHead;
      assert s[|s| - |EndMarker|..] == EndMarker;
      assert s[|AssistantHead|..|s| - |EndMarker|] == m.content;
      assert s[12] == 'a' && UserHead[12] == 'u';
      assert s[..|UserHead|] != UserHead;
    }
  }

  /** Every message rendered, in order. */
  function RenderAll(messages: seq<Message>): (rendered: seq<string>)
    ensures |rendered| == |messages|
    ensures forall i :: 0 <= i < |messages| ==> rendered[i] == Render(messages[i])
  {
    seq(|messages|, i requires 0 <= i < |messages| => Render(messages[i]))
  }

  /** Rendering one more message adds its piece at the end. */
  lemma RenderAllSnoc(messages: seq<Message>, m: Message)
    ensures RenderAll(messages + [m]) == RenderAll(messages) + [Render(m)]
  {
    var r, r' := RenderAll(messages + [m]), RenderAll(messages) + [Render(m)];
    assert forall i :: 0 <= i < |r| ==> r[i] == r'[i];
  }

  /** The list of prompt pieces: one rendered piece per message, in order,
      then the open assistant marker and an empty piece. */
  function PromptPieces(messages: seq<Message>): (pieces: seq<string>)
    ensures |pieces| == |messages| + 2
    ensures forall i :: 0 <= i < |messages| ==> pieces[i] == Render(messages[i])
    ensures pieces[|messages|] == OpenAssistant && pieces[|messages| + 1] == ""
  {
    RenderAll(messages) + [OpenAssistant, ""]
  }

  /** The prompt text: the pieces joined with newlines. */
  function PromptText(messages: seq<Message>): string
  {
    Join(PromptPieces(messages), "\n")
  }

  /** The loop of `genereer_antwoord` that appends one piece per message, a
      user message under the user head and every other message under the
      assistant head, and then the two closing pieces. */
  method BuildPromptPieces(messages: seq<Message>) returns (pieces: seq<string>)
    ensures pieces == PromptPieces(messages)
  {
    pieces := [];
    var i := 0;
    while i < |messages|
      invariant 0 <= i <= |messages|
      invariant |pieces| == i
      invariant forall k :: 0 <= k < i ==> pieces[k] == Render(messages[k])
    {
      var m := messages[i];
      var piece;
      if m.role == User {
        piece := UserHead + m.content + EndMarker;
      } else {
        piece := AssistantHead + m.content + EndMarker;
      }
      pieces := pieces + [piece];
      i := i + 1;
    }
    assert pieces == RenderAll(messages);
    pieces := pieces + [OpenAssistant];
    pieces := pieces + [""];
  }

  /** With no messages the prompt is only the open assistant marker and a
      newline. */
  lemma PromptTextOfNoMessages()
    ensures PromptText([]) == OpenAssistant + "\n"
  {
  }

  /** The rendered messages joined by newlines, followed by a newline, the open
      assistant marker and a final newline. */
  lemma PromptTextEnding(messages: seq<Message>)
    requires messages != []
    ensures PromptText(messages) == Join(RenderAll(messages), "\n") + ("\n" + OpenAssistant + "\n")
    ensures EndsWith(PromptText(messages), "\n" + OpenAssistant + "\n")
  {
    JoinClosedBy(RenderAll(messages), OpenAssistant, "\n");
  }

  const TokenCeiling: nat := 3072
  /** The `prompt_template` argument: the prompt is passed on as it is. */
  const PromptTemplate: string := "{prompt}"

  /** What is sent to the remote model. */
  datatype Request = Request(model: string, prompt: string, promptTemplate: string, temperature: real, topP: real)

  /** The outcome of the generator up to the remote call: either the prompt is
      refused with its token count, or the request went out and the remote
      answered with these fragments. */
  datatype Outcome =
    | PromptTooLong(tokens: nat)
    | Dispatched(request: Request, fragments: seq<string>)

  /** `genereer_antwoord`: build the prompt, count its tokens with the
      tokenizer `countTokens`, and only below the ceiling call `remote`. */
  method Generate(messages: seq<Message>, model: string, temperature: real, topP: real,
                  countTokens: string -> nat, remote: Request -> seq<string>)
    returns (g: Outcome)
    ensures g.PromptTooLong? <==> countTokens(PromptText(messages)) >= TokenCeiling
    ensures g.PromptTooLong? ==> g.tokens == countTokens(PromptText(messages))
    ensures g.Dispatched? ==>
      g.request == Request(model, PromptText(messages), PromptTemplate, temperature, topP) &&
      g.fragments == remote(g.request)
  {
    var pieces := BuildPromptPieces(messages);
    var prompt := Join(pieces, "\n");
    var tokens := countTokens(prompt);
    if tokens >= TokenCeiling {
      return PromptTooLong(tokens);
    }
    var request := Request(model, prompt, PromptTemplate, temperature, topP);
    g := Dispatched(request, remote(request));
  }

  /** Consumes the stream fragment by fragment, as `st.write_stream` does,
      and returns the whole text. */
  method WriteStream(fragments: seq<string>) returns (full: string)
    ensures full == Concat(fragments)
  {
    full := "";
    var i := 0;
    while i < |fragments|
      invariant 0 <= i <= |fragments|
      invariant full == Concat(fragments[..i])
    {
      ConcatSnoc(fragments[..i], fragments[i]);
      assert fragments[..i + 1] == fragments[..i] + [fragments[i]];
      full := full + fragments[i];
      i := i + 1;
    }
    assert fragments[..i] == fragments;
  }
}
