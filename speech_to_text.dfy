/**
 * The dictation hook used by the chat: a Live API session configured as a
 * transcriber, whose only output is the transcription of the user's speech.
 */
module SpeechToText {
  import opened Prelude
  import opened LiveApi
  import Base64
  import PcmCodec
  import LiveSession

  /** The text `onmessage` passes to `onTranscript`, if any: the non-empty input transcription. */
  function Forwarded(msg: ServerMessage): (r: Option<string>)
    ensures r.Some? <==> IsTruthy(msg.inputTranscription)
    ensures r.Some? ==> r == msg.inputTranscription && r.value != ""
  {
    if IsTruthy(msg.inputTranscription) then msg.inputTranscription else None
  }

  /**
   * Dictation forwards exactly the user's half of what the voice assistant
   * reports for the same message; the model's transcription and audio are ignored.
   */
  lemma ForwardsUserTranscript(msg: ServerMessage, text: string)
    ensures Forwarded(msg) == Some(text) <==> LiveSession.Transcript(text, User) in LiveSession.Transcripts(msg)
  {
    var t := LiveSession.Transcripts(msg);
    if LiveSession.Transcript(text, User) in t {
      var i :| 0 <= i < |t| && t[i] == LiveSession.Transcript(text, User);
    }
    if Forwarded(msg) == Some(text) {
      assert t[0] == LiveSession.Transcript(text, User);
    }
  }

  /** The listening flag, which refs are set, and whether the session was asked to close. */
  datatype HookState = HookState(
    isListening: bool,
    hasInputContext: bool,
    hasStream: bool,
    hasProcessor: bool,
    hasSession: bool,
    sessionCloseRequested: bool)

  /**
   * The state `stop` leaves: not listening, the processor, stream and input
   * context refs null, and a close requested of any session that was started.
   */
  function Stopped(s: HookState): (r: HookState)
    ensures !r.isListening && !r.hasInputContext && !r.hasStream && !r.hasProcessor
    ensures r.hasSession == s.hasSession
    ensures r.sessionCloseRequested <==> s.sessionCloseRequested || s.hasSession
  {
    HookState(false, false, false, false, s.hasSession, s.sessionCloseRequested || s.hasSession)
  }

  /**
   * The state `start` leaves: the input context is created; a refused
   * microphone leaves the hook not listening with no new stream or session;
   * a granted one holds the stream and requests a session with no close request
   * pending; a refusal leaves the request as it was. The processor is left alone.
   */
  function Started(s: HookState, micGranted: bool): (r: HookState)
    ensures r.hasInputContext
    ensures !micGranted ==> !r.isListening && r.hasStream == s.hasStream && r.hasSession == s.hasSession
    ensures micGranted ==> r.hasStream && r.hasSession && r.isListening == s.isListening
    ensures micGranted ==> !r.sessionCloseRequested
    ensures !micGranted ==> r.sessionCloseRequested == s.sessionCloseRequested
    ensures r.hasProcessor == s.hasProcessor
  {
    if micGranted then s.(hasInputContext := true, hasStream := true, hasSession := true, sessionCloseRequested := false)
    else s.(hasInputContext := true, isListening := false)
  }

  /** Stopping twice leaves the same state as stopping once. */
  lemma StopIdempotent(s: HookState)
    ensures Stopped(Stopped(s)) == Stopped(s)
  {
  }

  /**
   * Starting again after `stop`: the old session has been asked to close, and
   * the newly requested one, with a granted microphone, has not.
   */
  lemma RestartRequestsFreshSession(s: HookState)
    requires s.hasSession
    ensures Stopped(s).sessionCloseRequested
    ensures var r := Started(Stopped(s), true);
      r.hasSession && r.hasStream && !r.sessionCloseRequested && !r.isListening
  {
  }

  /** The `useSpeechToText` hook: its listening flag and its refs. */
  class SpeechToTextHook {
    var isListening: bool
    var hasInputContext: bool
    var hasStream: bool
    var hasProcessor: bool
    var hasSession: bool
    var sessionCloseRequested: bool

    function State(): HookState
      reads this
    {
      HookState(isListening, hasInputContext, hasStream, hasProcessor, hasSession, sessionCloseRequested)
    }

    /** The hook's state on first render: nothing held, not listening. */
    constructor ()
      ensures !isListening && !hasInputContext && !hasStream && !hasProcessor
      ensures !hasSession && !sessionCloseRequested
    {
      isListening, hasInputContext, hasStream := false, false, false;
      hasProcessor, hasSession, sessionCloseRequested := false, false, false;
    }

    /**
     * `start`: creates the 16 kHz input context, then asks for the microphone;
     * a refusal is caught and leaves the hook not listening (the context is
     * kept). Otherwise the stream is kept and the session requested.
     */
    method Start(micGranted: bool)
      modifies this
      ensures State() == Started(old(State()), micGranted)
    {
      hasInputContext := true;
      if !micGranted {
        isListening := false;
        return;
      }
      hasStream := true;
      hasSession := true;
      sessionCloseRequested := false;
    }

    /** `onopen`: listening; capture starts when the input context and the stream are held. */
    method OnOpen()
      modifies this
      ensures isListening
      ensures hasProcessor == (old(hasProcessor) || (hasInputContext && hasStream))
      ensures hasInputContext == old(hasInputContext) && hasStream == old(hasStream)
      ensures hasSession == old(hasSession) && sessionCloseRequested == old(sessionCloseRequested)
    {
      isListening := true;
      if !hasInputContext || !hasStream {
        return;
      }
      hasProcessor := true;
    }

    /** `onaudioprocess`: a block of microphone samples goes to the session as a PCM blob (`PcmCodec.AudioProcessed`). */
    method OnAudioProcess(inputData: array<real>) returns (sent: Option<PcmCodec.Blob>)
      ensures hasSession ==>
        sent.Some? && sent.value.mimeType == PcmCodec.MimeType
        && Base64.Decode(sent.value.data) == Some(PcmCodec.PcmBytes(inputData[..]))
      ensures !hasSession ==> sent.None?
    {
      sent := PcmCodec.AudioProcessed(inputData, hasSession);
    }

    /** `onclose` and `onerror`: listening stops, the refs stay as they are. */
    method OnCloseOrError()
      modifies this
      ensures !isListening
      ensures hasInputContext == old(hasInputContext) && hasStream == old(hasStream)
      ensures hasProcessor == old(hasProcessor)
      ensures hasSession == old(hasSession) && sessionCloseRequested == old(sessionCloseRequested)
    {
      isListening := false;
    }

    /**
     * `stop`: asks a requested session to close, then releases the processor,
     * the stream and the input context and clears every ref but the session's.
     * Calling it again changes nothing more.
     */
    method Stop()
      modifies this
      ensures State() == Stopped(old(State()))
    {
      if hasSession {
        sessionCloseRequested := true;
      }
      if hasProcessor {
        hasProcessor := false;
      }
      if hasStream {
        hasStream := false;
      }
      if hasInputContext {
        hasInputContext := false;
      }
      isListening := false;
    }
  }
}
