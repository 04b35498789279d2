/** The conversation kept in the session state, and what one run of the
    chat script does to it: seed or reset it to the greeting, append the
    user's message, and append the streamed answer unless the prompt is
    refused. */
module Conversation {
  import opened Text
  import opened Wrappers
  import opened Settings
  import opened Generation

  /** The assistant greeting the conversation starts with and is reset to. */
  const Greeting: Message := Message(Assistant, "Stel mij een vraag.")

  /** What every reachable conversation satisfies: it is never empty and it
      opens with the greeting. */
  predicate WellFormed(messages: seq<Message>)
  {
    |messages| > 0 && messages[0] == Greeting
  }

  /** The chat input is switched off only when no API token was given at
      all; a token of the wrong shape still leaves it on. */
  predicate ChatEnabled(apiToken: string)
  {
    apiToken != ""
  }

  /** The shape check does not gate the chat input: every non-empty token
      enables it, the well-formed ones among them, and a malformed token
      such as `r8_` exists. */
  lemma ShapeTestDoesNotGateChat(token: string)
    ensures token != "" ==> ChatEnabled(token)
    ensures IsWellFormedToken(token) ==> ChatEnabled(token)
    ensures ChatEnabled("r8_") && !IsWellFormedToken("r8_")
  {
  }

  /** Whether this run submits a user message: the input is enabled and the
      user sent a non-empty text. */
  predicate Submits(apiToken: string, input: Option<string>)
  {
    ChatEnabled(apiToken) && input.Some? && input.value != ""
  }

  /** The conversation after the chat input has been handled: the earlier
      messages stay, it grows by at most one message, it grows exactly when
      the run submits, and what it gains is the submitted non-empty text
      under the user role. */
  function AfterSubmit(messages: seq<Message>, apiToken: string, input: Option<string>): (after: seq<Message>)
    ensures |messages| <= |after| <= |messages| + 1
    ensures after[..|messages|] == messages
    ensures |after| > |messages| <==> Submits(apiToken, input)
    ensures |after| > |messages| ==>
      input.Some? && input.value != "" && after[|messages|] == Message(User, input.value)
    ensures WellFormed(messages) ==> WellFormed(after)
  {
    if Submits(apiToken, input) then messages + [Message(User, input.value)] else messages
  }

  /** What the answering part of a run reports. */
  datatype Reply =
    | NoReplyNeeded          // the last message is already the assistant's
    | Stopped(tokens: nat)   // the prompt reached the token ceiling
    | Answered(content: string)

  /** A reply together with the conversation it leaves behind. */
  datatype Step = Step(reply: Reply, messages: seq<Message>)

  /** The request a conversation produces for the given settings. */
  function RequestFor(messages: seq<Message>, model: string, temperature: real, topP: real): Request
  {
    Request(model, PromptText(messages), PromptTemplate, temperature, topP)
  }

  /** The answering part of a run: when the last message is not the
      assistant's, generate; a refused prompt stops the run with nothing
      appended, otherwise the whole streamed text is appended. */
  function RespondStep(messages: seq<Message>, model: string, temperature: real, topP: real,
                       countTokens: string -> nat, remote: Request -> seq<string>): (s: Step)
    requires messages != []
    ensures |s.messages| == |messages| + (if s.reply.Answered? then 1 else 0)
    ensures s.messages[..|messages|] == messages
    ensures s.reply.Answered? <==>
      messages[|messages| - 1].role == User && countTokens(PromptText(messages)) < TokenCeiling
    ensures s.reply.Answered? ==>
      s.reply.content == Concat(remote(RequestFor(messages, model, temperature, topP))) &&
      s.messages[|messages|] == Message(Assistant, s.reply.content)
    ensures s.reply.Stopped? <==>
      messages[|messages| - 1].role == User && countTokens(PromptText(messages)) >= TokenCeiling
    ensures s.reply.Stopped? ==> s.reply.tokens == countTokens(PromptText(messages))
    ensures s.reply.NoReplyNeeded? <==> messages[|messages| - 1].role == Assistant
  {
    if messages[|messages| - 1].role == Assistant then Step(NoReplyNeeded, messages)
    else
      var tokens := countTokens(PromptText(messages));
      if tokens >= TokenCeiling then Step(Stopped(tokens), messages)
      else
        var content := Concat(remote(RequestFor(messages, model, temperature, topP)));
        Step(Answered(content), messages + [Message(Assistant, content)])
  }

  /** One whole run of the script from the chat input on, with the model
      chosen in the sidebar. */
  function TurnStep(messages: seq<Message>, apiToken: string, input: Option<string>, choice: string,
                    temperature: real, topP: real,
                    countTokens: string -> nat, remote: Request -> seq<string>): Step
    requires messages != []
  {
    RespondStep(AfterSubmit(messages, apiToken, input), ResolveModel(choice), temperature, topP, countTokens, remote)
  }

  /** Every run keeps the conversation well formed. */
  lemma TurnKeepsWellFormed(messages: seq<Message>, apiToken: string, input: Option<string>, choice: string,
                            temperature: real, topP: real,
                            countTokens: string -> nat, remote: Request -> seq<string>)
    requires WellFormed(messages)
    ensures WellFormed(TurnStep(messages, apiToken, input, choice, temperature, topP, countTokens, remote).messages)
  {
  }

  /** A run that submits a message and whose prompt stays under the ceiling
      appends exactly two messages: the user's text, then the assistant's
      answer, which is the concatenation of every fragment the remote sent
      for the prompt that ends in the user's message. */
  lemma SuccessfulTurn(messages: seq<Message>, apiToken: string, input: Option<string>, choice: string,
                       temperature: real, topP: real,
                       countTokens: string -> nat, remote: Request -> seq<string>)
    requires messages != []
    requires Submits(apiToken, input)
    requires countTokens(PromptText(messages + [Message(User, input.value)])) < TokenCeiling
    ensures var s := TurnStep(messages, apiToken, input, choice, temperature, topP, countTokens, remote);
      var sent := messages + [Message(User, input.value)];
      var answer := Concat(remote(RequestFor(sent, ResolveModel(choice), temperature, topP)));
      && s.reply == Answered(answer)
      && |s.messages| == |messages| + 2
      && s.messages[..|messages|] == messages
      && s.messages[|messages|] == Message(User, input.value)
      && s.messages[|messages| + 1] == Message(Assistant, answer)
  {
  }

  /** When the prompt reaches the ceiling the remote model plays no part:
      the outcome is the same whatever the remote would have sent, and the
      conversation is left as it was. */
  lemma TooLongIgnoresRemote(messages: seq<Message>, model: string, temperature: real, topP: real,
                             countTokens: string -> nat, remote1: Request -> seq<string>, remote2: Request -> seq<string>)
    requires messages != []
    requires countTokens(PromptText(messages)) >= TokenCeiling
    ensures RespondStep(messages, model, temperature, topP, countTokens, remote1)
         == RespondStep(messages, model, temperature, topP, countTokens, remote2)
    ensures RespondStep(messages, model, temperature, topP, countTokens, remote1).messages == messages
  {
  }

  /** The prompt of a run that just submitted a message ends with that
      message, rendered under the user tag, before the open assistant
      marker. */
  lemma SubmittedMessageClosesPrompt(messages: seq<Message>, text: string)
    ensures messages != [] ==>
      PromptText(messages + [Message(User, text)])
        == Join(RenderAll(messages), "\n") + "\n" + (UserHead + text + EndMarker) + ("\n" + OpenAssistant + "\n")
    ensures messages == [] ==>
      PromptText([Message(User, text)]) == (UserHead + text + EndMarker) + ("\n" + OpenAssistant + "\n")
  {
    var u := Message(User, text);
    var sent := messages + [u];
    assert Render(u) == UserHead + text + EndMarker;
    RenderAllSnoc(messages, u);
    PromptTextEnding(sent);
    if messages != [] {
      JoinSnoc(RenderAll(messages), Render(u), "\n");
    } else {
      assert sent == [u];
      assert RenderAll(sent) == [Render(u)];
    }
  }

  /** A run with nothing submitted after an answered turn changes nothing. */
  lemma IdleRunChangesNothing(messages: seq<Message>, apiToken: string, input: Option<string>, choice: string,
                              temperature: real, topP: real,
                              countTokens: string -> nat, remote: Request -> seq<string>)
    requires messages != [] && messages[|messages| - 1].role == Assistant
    requires !Submits(apiToken, input)
    ensures TurnStep(messages, apiToken, input, choice, temperature, topP, countTokens, remote) == Step(NoReplyNeeded, messages)
  {
  }

  /** The session state: the conversation, replaced on reset and appended to
      in place by a run. */
  class Session {
    var messages: seq<Message>

    ghost predicate Valid()
      reads this
    {
      WellFormed(messages)
    }

    /** Seeding the session state when it holds no conversation yet. */
    constructor ()
      ensures Valid()
      ensures messages == [Greeting]
    {
      messages := [Greeting];
    }

    /** `wis_chatgeschiedenis`: replace the history by the greeting alone. */
    method Reset()
      modifies this
      ensures Valid()
      ensures messages == [Greeting]
    {
      messages := [Greeting];
    }

    /** The chat input: a non-empty text sent while the input is enabled is
        appended as a user message. */
    method Submit(apiToken: string, input: Option<string>) returns (submitted: bool)
      requires Valid()
      modifies this
      ensures Valid()
      ensures submitted == Submits(apiToken, input)
      ensures messages == AfterSubmit(old(messages), apiToken, input)
    {
      submitted := false;
      if apiToken != "" {
        match input {
          case Some(text) =>
            if text != "" {
              messages := messages + [Message(User, text)];
              submitted := true;
            }
          case None =>
        }
      }
    }

    /** Answer when the last message is not the assistant's: generate,
        consume the stream, and append the whole text; a refused prompt
        stops with nothing appended. */
    method Respond(model: string, temperature: real, topP: real,
                   countTokens: string -> nat, remote: Request -> seq<string>) returns (reply: Reply)
      requires Valid()
      modifies this
      ensures Valid()
      ensures Step(reply, messages) == RespondStep(old(messages), model, temperature, topP, countTokens, remote)
    {
      if messages[|messages| - 1].role == Assistant {
        return NoReplyNeeded;
      }
      var generation := Generate(messages, model, temperature, topP, countTokens, remote);
      match generation {
        case PromptTooLong(tokens) =>
          reply := Stopped(tokens);
        case Dispatched(request, fragments) =>
          var full := WriteStream(fragments);
          messages := messages + [Message(Assistant, full)];
          reply := Answered(full);
      }
    }

    /** One run of the script from the chat input on. */
    method Turn(apiToken: string, input: Option<string>, choice: string, temperature: real, topP: real,
                countTokens: string -> nat, remote: Request -> seq<string>)
      returns (submitted: bool, reply: Reply)
      requires Valid()
      modifies this
      ensures Valid()
      ensures submitted == Submits(apiToken, input)
      ensures Step(reply, messages) == TurnStep(old(messages), apiToken, input, choice, temperature, topP, countTokens, remote)
    {
      var model := ResolveModel(choice);
      submitted := Submit(apiToken, input);
      reply := Respond(model, temperature, topP, countTokens, remote);
    }
  }
}
