/**
 * The chat screen: the message list, the input box with dictation, and the
 * send handler that streams the assistant's reply into the last message.
 */
module ChatInterface {
  import opened Prelude
  import JsText
  import SpeechToText

  /** One entry of the conversation shown on screen. */
  datatype ChatMessage = ChatMessage(role: Speaker, text: string)

  /** One part of a history entry sent to the chat service: `{ text }`. */
  datatype Part = Part(text: string)

  /** One history entry in the service's format: `{ role, parts }`. */
  datatype Content = Content(role: Speaker, parts: seq<Part>)

  const Greeting := "Hello. I am your Medical AI assistant. I can explain medications, interactions, and safety guidelines. How can I help you today?"
  const ErrorReply := "I encountered an error. Please try again."

  /** The list the screen starts with: the model's greeting alone. */
  const InitialMessages: seq<ChatMessage> := [ChatMessage(Model, Greeting)]

  /** `messages.map(m => ({ role: m.role, parts: [{ text: m.text }] }))`. */
  function ToHistory(messages: seq<ChatMessage>): (h: seq<Content>)
    ensures |h| == |messages|
    ensures forall i :: 0 <= i < |h| ==> h[i].role == messages[i].role && h[i].parts == [Part(messages[i].text)]
  {
    seq(|messages|, i requires 0 <= i < |messages| => Content(messages[i].role, [Part(messages[i].text)]))
  }

  /** Reads a history back as messages, joining each entry's parts. */
  function FromHistory(h: seq<Content>): (m: seq<ChatMessage>)
    ensures |m| == |h|
  {
    seq(|h|, i requires 0 <= i < |h| => ChatMessage(h[i].role, Texts(h[i].parts)))
  }

  function Texts(parts: seq<Part>): string
  {
    if parts == [] then "" else parts[0].text + Texts(parts[1..])
  }

  /** The history loses nothing: every role and text can be read back from it, in order. */
  lemma HistoryRoundTrip(messages: seq<ChatMessage>)
    ensures FromHistory(ToHistory(messages)) == messages
  {
    var h := ToHistory(messages);
    forall i | 0 <= i < |messages| ensures FromHistory(h)[i] == messages[i] {
      assert Texts(h[i].parts) == messages[i].text + Texts([]);
    }
  }

  /** A streamed chunk's `text`, which may be missing. */
  function ChunkText(chunk: Option<string>): string
  {
    if chunk.Some? then chunk.value else ""
  }

  /**
   * `fullResponse` after the given chunks: the concatenation of every non-empty
   * chunk text, in order. It opens with the first chunk's text and is at least
   * as long as any one chunk's text.
   */
  function Joined(chunks: seq<Option<string>>): (r: string)
    ensures chunks != [] ==> ChunkText(chunks[0]) <= r
    ensures forall i :: 0 <= i < |chunks| ==> |ChunkText(chunks[i])| <= |r|
    decreases |chunks|
  {
    if chunks == [] then ""
    else
      var init := chunks[..|chunks| - 1];
      assert forall i :: 0 <= i < |init| ==> init[i] == chunks[i];
      Joined(init) + ChunkText(chunks[|chunks| - 1])
  }

  /** Joining distributes over concatenation of the chunk stream. */
  lemma {:induction false} JoinedConcat(a: seq<Option<string>>, b: seq<Option<string>>)
    ensures Joined(a + b) == Joined(a) + Joined(b)
    decreases |b|
  {
    if b != [] {
      assert (a + b)[..|a + b| - 1] == a + b[..|b| - 1];
      JoinedConcat(a, b[..|b| - 1]);
    } else {
      assert a + b == a;
    }
  }

  /** Chunks without text leave the response as it was. */
  lemma {:induction false} JoinedSkipsEmpty(chunks: seq<Option<string>>)
    requires forall i :: 0 <= i < |chunks| ==> ChunkText(chunks[i]) == ""
    ensures Joined(chunks) == ""
    decreases |chunks|
  {
    if chunks != [] {
      JoinedSkipsEmpty(chunks[..|chunks| - 1]);
    }
  }

  /**
   * How the chat service answers: the call itself throws, or it returns a
   * stream of chunks, after which iterating may throw.
   */
  datatype ChatReply = Rejected | Streamed(chunks: seq<Option<string>>, failsAfter: bool)

  /** The messages a send appends after the user's: the streamed reply and/or the error message. */
  function ReplyMessages(reply: ChatReply): (m: seq<ChatMessage>)
    ensures reply.Rejected? ==> m == [ChatMessage(Model, ErrorReply)]
    ensures reply.Streamed? ==> |m| >= 1 && m[0] == ChatMessage(Model, Joined(reply.chunks))
    ensures reply.Streamed? ==> (|m| == 2 <==> reply.failsAfter) && (reply.failsAfter ==> m[1] == ChatMessage(Model, ErrorReply))
    ensures |m| <= 2
  {
    match reply
    case Rejected => [ChatMessage(Model, ErrorReply)]
    case Streamed(chunks, failsAfter) =>
      [ChatMessage(Model, Joined(chunks))] + (if failsAfter then [ChatMessage(Model, ErrorReply)] else [])
  }

  /**
   * A send goes ahead only when `input.trim()` is non-empty and no request is in
   * flight. The test is made on the characters: the input is not all whitespace.
   */
  predicate CanSend(input: string, isLoading: bool) {
    !JsText.AllWhitespace(input) && !isLoading
  }

  /** The guard on the characters is the guard the code writes: `input.trim()` non-empty and not loading. */
  lemma CanSendIff(input: string, isLoading: bool)
    ensures CanSend(input, isLoading) <==> JsText.Trim(input) != [] && !isLoading
  {
    JsText.TrimEmptyIff(input);
  }

  /** What the chat service is called with: the prior conversation and the new message's text. */
  datatype ChatRequest = ChatRequest(history: seq<Content>, message: string)

  /** The chat screen's state, and the dictation hook it uses. */
  class ChatScreen {
    var messages: seq<ChatMessage>
    var input: string
    var isLoading: bool
    const speech: SpeechToText.SpeechToTextHook

    /** The greeting alone, an empty input box, not loading, dictation off. */
    constructor ()
      ensures messages == InitialMessages && input == "" && !isLoading
      ensures fresh(speech) && !speech.isListening
    {
      messages := InitialMessages;
      input := "";
      isLoading := false;
      speech := new SpeechToText.SpeechToTextHook();
    }

    /** Dictated text is appended to what is already in the input box. */
    method OnVoiceTranscript(text: string)
      modifies this
      ensures input == old(input) + text
      ensures messages == old(messages) && isLoading == old(isLoading)
    {
      input := input + text;
    }

    /** The microphone button: stops dictation when listening, starts it otherwise. */
    method ToggleVoice(micGranted: bool)
      modifies speech
      ensures old(speech.isListening) ==> speech.State() == SpeechToText.Stopped(old(speech.State()))
      ensures !old(speech.isListening) ==> speech.State() == SpeechToText.Started(old(speech.State()), micGranted)
    {
      if speech.isListening {
        speech.Stop();
      } else {
        speech.Start(micGranted);
      }
    }

    /**
     * The streaming loop of `handleSend`: appends an empty model message, then
     * each non-empty chunk extends `fullResponse` and overwrites the last
     * message with it.
     */
    method AppendStreamed(chunks: seq<Option<string>>)
      modifies this
      ensures messages == old(messages) + [ChatMessage(Model, Joined(chunks))]
      ensures input == old(input) && isLoading == old(isLoading)
    {
      var fullResponse := "";
      messages := messages + [ChatMessage(Model, "")];
      for i := 0 to |chunks|
        invariant fullResponse == Joined(chunks[..i])
        invariant messages == old(messages) + [ChatMessage(Model, fullResponse)]
        invariant input == old(input) && isLoading == old(isLoading)
      {
        assert chunks[..i + 1][..i] == chunks[..i];
        var text := chunks[i];
        if text.Some? && text.value != "" {
          fullResponse := fullResponse + text.value;
          var newArr := messages;
          newArr := newArr[|newArr| - 1 := ChatMessage(Model, fullResponse)];
          messages := newArr;
        }
      }
      assert chunks[..|chunks|] == chunks;
    }

    /** The `try`/`catch` of `handleSend`: appends what the reply produces, the error message included. */
    method ReceiveReply(reply: ChatReply)
      modifies this
      ensures messages == old(messages) + ReplyMessages(reply)
      ensures input == old(input) && isLoading == old(isLoading)
    {
      match reply {
        case Rejected =>
          messages := messages + [ChatMessage(Model, ErrorReply)];
        case Streamed(chunks, failsAfter) =>
          AppendStreamed(chunks);
          if failsAfter {
            messages := messages + [ChatMessage(Model, ErrorReply)];
          }
      }
    }

    /**
     * `handleSend`. Does nothing unless `CanSend`. Otherwise stops dictation,
     * appends the user's message with the untrimmed input, clears the input,
     * calls the service with the conversation as it was before the send, and
     * appends the reply: a placeholder model message whose text grows with
     * every non-empty chunk, then the error message if the stream throws, or
     * the error message alone if the call throws. Loading ends false.
     */
    method HandleSend(reply: ChatReply) returns (request: Option<ChatRequest>)
      modifies this, speech
      ensures !CanSend(old(input), old(isLoading)) ==>
        && request.None?
        && messages == old(messages) && input == old(input) && isLoading == old(isLoading)
        && speech.State() == old(speech.State())
      ensures CanSend(old(input), old(isLoading)) ==>
        && request == Some(ChatRequest(ToHistory(old(messages)), old(input)))
        && messages == old(messages) + [ChatMessage(User, old(input))] + ReplyMessages(reply)
        && input == "" && !isLoading
        && speech.State() == (if old(speech.isListening) then SpeechToText.Stopped(old(speech.State())) else old(speech.State()))
    {
      if JsText.AllWhitespace(input) || isLoading {
        return None;
      }
      if speech.isListening {
        speech.Stop();
      }
      var prior := messages;
      var userMsg := ChatMessage(User, input);
      messages := messages + [userMsg];
      input := "";
      isLoading := true;
      var history := ToHistory(prior);
      request := Some(ChatRequest(history, userMsg.text));
      ReceiveReply(reply);
      isLoading := false;
    }
  }
}
