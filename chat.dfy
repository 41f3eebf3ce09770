/** The chat consultant: a greeting, then each send appends the user's message and a placeholder
    answer that the streamed chunks overwrite as they arrive. */
module ChatConsultantComponent {
  import opened Wrappers
  import opened Strings
  import opened Types
  import opened Gemini
  import opened Language

  const InitialMessageKey := "chatConsultant.initialMessage"
  const ErrorMessageKey := "chatConsultant.errorMessage"
  /** The text of the answer bubble until the first chunk arrives. */
  const Pending := "..."

  /** The chat call: the stream answering a message after a history. */
  type Chatter = (seq<ChatMessage>, string) -> ChatStream

  /** The chat call of the AI service in a language. */
  function ChatIn(svc: Service, language: string): (chat: Chatter)
    ensures forall history, message :: chat(history, message) == GetChatStream(svc, history, message, language)
  {
    (history, message) => GetChatStream(svc, history, message, language)
  }

  /** `t` with no replacements, in a fixed language. */
  type Translator = string -> string

  /** The translation function of a table in a language. */
  function TranslatorFor(table: map<string, TNode>, language: string): (t: Translator)
    ensures forall key :: t(key) == Translate(table, language, key, [])
  {
    key => Translate(table, language, key, [])
  }

  function ModelMessage(text: string): ChatMessage {
    ChatMessage(ModelRole, [Part(text)])
  }

  function UserMessage(text: string): ChatMessage {
    ChatMessage(UserRole, [Part(text)])
  }

  /** `messages.slice(1)`: the list without its first message, the greeting. */
  function History(messages: seq<ChatMessage>): (h: seq<ChatMessage>)
    ensures |messages| > 0 ==> [messages[0]] + h == messages
    ensures |messages| == 0 ==> h == []
  {
    if |messages| == 0 then [] else messages[1..]
  }

  /** One call to the chat service. */
  datatype ChatCall = ChatCall(history: seq<ChatMessage>, message: string)

  /** The texts the answer bubble shows during one send, in order: the placeholder, the accumulated
      answer after each chunk, and the error text when the stream fails. */
  function Shown(stream: ChatStream, errorText: string): seq<string> {
    [Pending] + seq(|stream.chunks|, k requires 0 <= k < |stream.chunks| => Concat(stream.chunks[..k + 1]))
    + (if stream.failure.Some? then [errorText] else [])
  }

  /** The answer the bubble keeps: the error text after a failure, else the whole answer, or the
      placeholder when no chunk came. */
  function FinalAnswer(stream: ChatStream, errorText: string): string {
    if stream.failure.Some? then errorText
    else if |stream.chunks| == 0 then Pending
    else Concat(stream.chunks)
  }

  /** The bubble first shows the placeholder, then after the k-th chunk the first k chunks joined,
      then the error text if the stream fails; what it keeps is the last thing it showed. */
  lemma {:induction false} ShownInOrder(stream: ChatStream, errorText: string)
    ensures var r := Shown(stream, errorText);
            && |r| == 1 + |stream.chunks| + (if stream.failure.Some? then 1 else 0)
            && r[0] == Pending
            && (forall k :: 1 <= k <= |stream.chunks| ==> r[k] == Concat(stream.chunks[..k]))
            && (stream.failure.Some? ==> r[|r| - 1] == errorText)
            && FinalAnswer(stream, errorText) == r[|r| - 1]
  {
    var r := Shown(stream, errorText);
    var n := |stream.chunks|;
    forall k | 1 <= k <= n ensures r[k] == Concat(stream.chunks[..k]) {
    }
    if stream.failure.None? && n > 0 {
      assert stream.chunks[..n] == stream.chunks;
      assert r[n] == Concat(stream.chunks[..n]);
    }
  }

  /** Joining is compatible with splitting the chunks in two. */
  lemma {:induction false} ConcatAppend(a: seq<string>, b: seq<string>)
    ensures Concat(a + b) == Concat(a) + Concat(b)
    decreases |b|
  {
    if |b| == 0 {
      assert a + b == a;
    } else {
      var ab := a + b;
      assert ab[..|ab| - 1] == a + b[..|b| - 1];
      ConcatAppend(a, b[..|b| - 1]);
    }
  }

  /** The answer only grows: what was shown after k chunks starts what is shown after any later chunk. */
  lemma {:induction false} AnswerGrows(chunks: seq<string>, i: nat, j: nat)
    requires i <= j <= |chunks|
    ensures Concat(chunks[..i]) <= Concat(chunks[..j])
  {
    assert chunks[..j] == chunks[..i] + chunks[i..j];
    ConcatAppend(chunks[..i], chunks[i..j]);
  }

  class ChatConsultant {
    var messages: seq<ChatMessage>
    var input: string
    var isLoading: bool
    /** The chat calls made so far. */
    ghost var calls: seq<ChatCall>
    /** The texts the answer bubble showed during the last send. */
    ghost var shown: seq<string>

    /** The list starts with the greeting alone, in the current language. */
    constructor (lang: LanguageProvider)
      ensures messages == [ModelMessage(Translate(lang.translations, lang.language, InitialMessageKey, []))]
      ensures input == "" && !isLoading && calls == [] && shown == []
    {
      var greeting := lang.T(InitialMessageKey, []);
      messages := [ModelMessage(greeting)];
      input := "";
      isLoading := false;
      calls := [];
      shown := [];
    }

    /** `handleSend`. A blank input or a send while loading changes nothing. Otherwise the input is
        cleared, the user message and the answer are appended, and the service is asked with the list
        from before the send, without its greeting. */
    method HandleSend(t: Translator, chat: Chatter)
      modifies this
      ensures IsBlank(old(input)) || old(isLoading) ==>
                && messages == old(messages) && input == old(input) && isLoading == old(isLoading)
                && calls == old(calls) && shown == old(shown)
      ensures !IsBlank(old(input)) && !old(isLoading) ==>
                var stream := chat(History(old(messages)), old(input));
                var errorText := t(ErrorMessageKey);
                && messages == old(messages) + [UserMessage(old(input)), ModelMessage(FinalAnswer(stream, errorText))]
                && input == "" && !isLoading
                && calls == old(calls) + [ChatCall(History(old(messages)), old(input))]
                && shown == Shown(stream, errorText)
    {
      if IsBlank(input) || isLoading {
        return;
      }
      Send(t, chat);
    }

    /** A send that passed the guard. */
    method Send(t: Translator, chat: Chatter)
      modifies this
      ensures var stream := chat(History(old(messages)), old(input));
              var errorText := t(ErrorMessageKey);
              && messages == old(messages) + [UserMessage(old(input)), ModelMessage(FinalAnswer(stream, errorText))]
              && input == "" && !isLoading
              && calls == old(calls) + [ChatCall(History(old(messages)), old(input))]
              && shown == Shown(stream, errorText)
    {
      var before := messages;
      var current := input;
      input := "";
      isLoading := true;
      messages := messages + [UserMessage(current), ModelMessage(Pending)];
      shown := [Pending];
      var history := History(before);
      var stream := chat(history, current);
      calls := calls + [ChatCall(history, current)];
      StreamAnswer(stream.chunks);
      if stream.failure.Some? {
        ShowError(t(ErrorMessageKey));
      }
      isLoading := false;
    }

    /** The `catch` branch: the answer bubble shows the error text instead. */
    method ShowError(errorText: string)
      requires |messages| > 0
      modifies this
      ensures input == old(input) && isLoading == old(isLoading) && calls == old(calls)
      ensures messages == old(messages)[..|old(messages)| - 1] + [ModelMessage(errorText)]
      ensures shown == old(shown) + [errorText]
    {
      messages := messages[..|messages| - 1] + [ModelMessage(errorText)];
      shown := shown + [errorText];
    }

    /** The `for await` loop: after each chunk the answer bubble, the last message, holds all the
        chunks so far. */
    method StreamAnswer(chunks: seq<string>)
      requires |messages| > 0 && messages[|messages| - 1] == ModelMessage(Pending) && shown == [Pending]
      modifies this
      ensures input == old(input) && isLoading == old(isLoading) && calls == old(calls)
      ensures messages == old(messages)[..|old(messages)| - 1]
                          + [ModelMessage(if |chunks| == 0 then Pending else Concat(chunks))]
      ensures shown == [Pending] + seq(|chunks|, k requires 0 <= k < |chunks| => Concat(chunks[..k + 1]))
    {
      var base := messages[..|messages| - 1];
      var fullResponse := "";
      for i := 0 to |chunks|
        invariant fullResponse == Concat(chunks[..i])
        invariant messages == base + [ModelMessage(if i == 0 then Pending else fullResponse)]
        invariant shown == [Pending] + seq(i, k requires 0 <= k < i => Concat(chunks[..k + 1]))
        invariant input == old(input) && isLoading == old(isLoading) && calls == old(calls)
      {
        ConcatStep(chunks, i);
        fullResponse := fullResponse + chunks[i];
        messages := base + [ModelMessage(fullResponse)];
        shown := shown + [fullResponse];
      }
      assert chunks[..|chunks|] == chunks;
    }
  }
}
