/**
  The chat widget. Its state is the transcript, the text box, the busy flag and
  whether the panel is open. Sending is split at the point where the widget
  waits for the reply: `BeginSend` does everything before the wait and hands
  back the call to make, `ResolveSend` does everything after it. Nothing in
  `BeginSend` looks at the busy flag: only the send button is disabled while a
  reply is pending, and the Enter key still sends.
*/
module AiAssistant {
  import opened Wrappers
  import opened JsString
  import opened PortfolioTypes
  import opened GeminiService

  const Greeting: string := "Hello! I'm Muhamed's AI Assistant. Ask me about his experience with FIDIC claims, AutoLISP automation, or his QS background."

  /** The role a transcript entry has in the provider history: `model` stays, every other role is `user`. */
  function ProviderRole(role: Role): (name: string)
    ensures name == "model" <==> role == Model
    ensures name == "user" <==> role != Model
  {
    if role == Model then "model" else "user"
  }

  /** The provider history for a transcript: one single-part turn per entry, in order. */
  function HistoryOf(messages: seq<ChatMessage>): (h: seq<Content>)
    ensures |h| == |messages|
    ensures forall i :: 0 <= i < |h| ==>
      h[i].role == ProviderRole(messages[i].role) && h[i].parts == [Part(messages[i].text)]
  {
    if messages == [] then []
    else [Content(ProviderRole(messages[0].role), [Part(messages[0].text)])] + HistoryOf(messages[1..])
  }

  lemma {:induction false} HistoryOfAppend(a: seq<ChatMessage>, b: seq<ChatMessage>)
    ensures HistoryOf(a + b) == HistoryOf(a) + HistoryOf(b)
  {
    if a == [] {
      assert a + b == b;
    } else {
      assert (a + b)[0] == a[0];
      assert (a + b)[1..] == a[1..] + b;
      HistoryOfAppend(a[1..], b);
    }
  }

  /** Reads a provider turn back as a transcript entry. */
  function MessageOf(turn: Content): ChatMessage
  {
    ChatMessage(if turn.role == "model" then Model else User,
                if turn.parts == [] then "" else turn.parts[0].text)
  }

  /** The history loses nothing: reading it back gives the transcript it came from. */
  lemma {:induction false} HistoryRoundTrip(messages: seq<ChatMessage>)
    ensures |HistoryOf(messages)| == |messages|
    ensures forall i :: 0 <= i < |messages| ==> MessageOf(HistoryOf(messages)[i]) == messages[i]
  {
    var h := HistoryOf(messages);
    forall i | 0 <= i < |messages| ensures MessageOf(h[i]) == messages[i] {
      assert h[i].parts == [Part(messages[i].text)];
      assert messages[i].role == User || messages[i].role == Model;
    }
  }

  /**
    `!input.trim()`: the character-by-character form of `AllWhitespace`, kept
    because it unfolds one step at a time; `IsBlankIffTrimEmpty` shows it is
    the same as `AllWhitespace` and as `Trim(input) == ""`.
  */
  predicate IsBlank(input: string)
  {
    input == [] || (IsWhitespace(input[0]) && IsBlank(input[1..]))
  }

  /** Blank is exactly what `trim` turns into the empty string. */
  lemma {:induction false} IsBlankIffTrimEmpty(input: string)
    ensures IsBlank(input) <==> Trim(input) == ""
    ensures IsBlank(input) <==> AllWhitespace(input)
  {
    if input != [] {
      IsBlankIffTrimEmpty(input[1..]);
      assert forall i :: 1 <= i < |input| ==> input[i] == input[1..][i - 1];
    }
  }

  /** Input whose first character is visible is not blank. */
  lemma VisibleFirstIsNotBlank(input: string)
    requires input != [] && !IsWhitespace(input[0])
    ensures !IsBlank(input)
  {
  }

  /** The call `BeginSend` leaves to be made: the untrimmed text and the history before it was appended. */
  datatype PendingCall = PendingCall(userMessage: string, history: seq<Content>)

  /**
    The request a live reply is fetched with is the history of the transcript
    after the visitor's entry was appended.
  */
  lemma RequestCarriesTranscript(svc: ServiceState, messages: seq<ChatMessage>, userMessage: string,
                                 provider: Request -> Outcome)
    requires svc.apiKey != "" && svc.ai.Some?
    ensures var r := ChatWithPortfolio(svc, userMessage, HistoryOf(messages), provider);
      r.sent.Some? && r.sent.value.contents == HistoryOf(messages + [ChatMessage(User, userMessage)])
  {
    HistoryOfAppend(messages, [ChatMessage(User, userMessage)]);
  }

  class ChatWidget {
    var isOpen: bool
    var input: string
    var isLoading: bool
    var messages: seq<ChatMessage>

    /** The transcript starts with the greeting; entries are only ever appended after it. */
    ghost predicate Valid()
      reads this
    {
      |messages| >= 1 && messages[0] == ChatMessage(Model, Greeting)
    }

    /** A closed panel, an empty box, not busy, and the greeting as the only entry. */
    constructor ()
      ensures Valid()
      ensures !isOpen && input == "" && !isLoading
      ensures messages == [ChatMessage(Model, Greeting)]
    {
      isOpen := false;
      input := "";
      isLoading := false;
      messages := [ChatMessage(Model, Greeting)];
    }

    /** The floating button. */
    method Open()
      modifies this
      ensures isOpen
      ensures input == old(input) && isLoading == old(isLoading) && messages == old(messages)
    {
      isOpen := true;
    }

    /** The close button in the header. */
    method Close()
      modifies this
      ensures !isOpen
      ensures input == old(input) && isLoading == old(isLoading) && messages == old(messages)
    {
      isOpen := false;
    }

    /** Typing into the text box. */
    method SetInput(value: string)
      modifies this
      ensures input == value
      ensures isOpen == old(isOpen) && isLoading == old(isLoading) && messages == old(messages)
    {
      input := value;
    }

    /** The send button is enabled exactly when no reply is pending and the box holds a non-whitespace character. */
    function SendEnabled(): (enabled: bool)
      reads this
      ensures enabled <==> !isLoading && exists i :: 0 <= i < |input| && !IsWhitespace(input[i])
    {
      IsBlankIffTrimEmpty(input);
      !(isLoading || IsBlank(input))
    }

    /**
      The part of `handleSend` before the wait. Blank input changes nothing and
      makes no call. Otherwise the untrimmed input is appended as a visitor
      entry, the box is cleared, the busy flag is set, and the call to make
      carries the input and the history of the transcript as it was before.
      The busy flag is not consulted.
    */
    method BeginSend() returns (call: Option<PendingCall>)
      requires Valid()
      modifies this
      ensures Valid()
      ensures IsBlank(old(input)) ==> call == None
      ensures IsBlank(old(input)) ==>
        input == old(input) && isLoading == old(isLoading) && messages == old(messages)
      ensures !IsBlank(old(input)) ==> call == Some(PendingCall(old(input), HistoryOf(old(messages))))
      ensures !IsBlank(old(input)) ==>
        messages == old(messages) + [ChatMessage(User, old(input))] && input == "" && isLoading
      ensures call.Some? ==> |call.value.history| >= 1 && call.value.history[0] == Content("model", [Part(Greeting)])
      ensures isOpen == old(isOpen)
    {
      var userMsg, before := input, messages;
      if IsBlank(userMsg) {
        return None;
      }
      var after := before + [ChatMessage(User, userMsg)];
      assert after[0] == before[0];
      input, isLoading, messages := "", true, after;
      call := Some(PendingCall(userMsg, HistoryOf(before)));
    }

    /** The part of `handleSend` after the wait: the busy flag is cleared and the reply is appended as one assistant entry. */
    method ResolveSend(reply: string)
      requires Valid()
      modifies this
      ensures Valid()
      ensures !isLoading
      ensures messages == old(messages) + [ChatMessage(Model, reply)]
      ensures input == old(input) && isOpen == old(isOpen)
    {
      isLoading := false;
      messages := messages + [ChatMessage(Model, reply)];
    }

    /**
      `handleSend` run to completion with nothing else happening during the
      wait: a valid send adds the visitor entry and then the assistant entry
      carrying the fetcher's reply, and leaves the widget idle.
    */
    method HandleSend(svc: ServiceState, provider: Request -> Outcome) returns (reply: Option<string>)
      requires Valid()
      modifies this
      ensures Valid()
      ensures IsBlank(old(input)) ==>
        reply == None && input == old(input) && isLoading == old(isLoading) && messages == old(messages)
      ensures !IsBlank(old(input)) ==>
        reply == Some(ChatWithPortfolio(svc, old(input), HistoryOf(old(messages)), provider).text)
      ensures !IsBlank(old(input)) ==>
        && messages == old(messages) + [ChatMessage(User, old(input)), ChatMessage(Model, reply.value)]
        && input == "" && !isLoading
      ensures isOpen == old(isOpen)
    {
      ghost var before, text := messages, input;
      var call := BeginSend();
      reply := None;
      if call.Some? {
        assert call.value == PendingCall(text, HistoryOf(before));
        var r := ChatWithPortfolio(svc, call.value.userMessage, call.value.history, provider);
        ghost var mid := messages;
        assert mid == before + [ChatMessage(User, text)];
        ResolveSend(r.text);
        assert messages == mid + [ChatMessage(Model, r.text)];
        reply := Some(r.text);
      }
    }

    /**
      The key handler: Enter without Shift prevents the default action and
      begins a send; any other key, Shift+Enter included, does nothing.
    */
    method KeyDown(key: string, shiftKey: bool) returns (preventDefault: bool, call: Option<PendingCall>)
      requires Valid()
      modifies this
      ensures Valid()
      ensures preventDefault <==> key == "Enter" && !shiftKey
      ensures !preventDefault ==>
        call == None && input == old(input) && isLoading == old(isLoading) && messages == old(messages)
      ensures preventDefault && !IsBlank(old(input)) ==>
        && call == Some(PendingCall(old(input), HistoryOf(old(messages))))
        && messages == old(messages) + [ChatMessage(User, old(input))] && input == "" && isLoading
      ensures preventDefault && IsBlank(old(input)) ==>
        call == None && input == old(input) && isLoading == old(isLoading) && messages == old(messages)
      ensures isOpen == old(isOpen)
    {
      preventDefault := key == "Enter" && !shiftKey;
      call := None;
      if preventDefault {
        call := BeginSend();
      }
    }
  }

  /** A question and its mocked answer: the visitor entry, the busy flag, then the assistant entry. */
  method FidicQuestionScenario()
  {
    var w := new ChatWidget();
    w.Open();
    w.SetInput("What is your experience with FIDIC claims?");
    VisibleFirstIsNotBlank(w.input);
    var call := w.BeginSend();
    assert call.Some? && w.isLoading;
    assert w.messages == [ChatMessage(Model, Greeting), ChatMessage(User, "What is your experience with FIDIC claims?")];
    assert call.value.history == [Content("model", [Part(Greeting)])];
    w.ResolveSend("I have 6+ years...");
    assert !w.isLoading;
    assert w.messages[2] == ChatMessage(Model, "I have 6+ years...");
  }

  /** Enter while a reply is pending is not gated: a second visitor entry is appended and a second call made. */
  method EnterWhileBusyScenario()
  {
    var w := new ChatWidget();
    w.SetInput("first");
    VisibleFirstIsNotBlank(w.input);
    var first := w.BeginSend();
    assert w.isLoading && !w.SendEnabled();
    w.SetInput("second");
    VisibleFirstIsNotBlank(w.input);
    var prevented, second := w.KeyDown("Enter", false);
    assert first.Some? && second.Some?;
    assert |w.messages| == 3 && w.messages[1].role == User && w.messages[2].role == User;
  }
}
