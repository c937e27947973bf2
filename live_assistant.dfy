/**
 * The voice assistant screen: the latest transcript line of each speaker and
 * the connect/disconnect button over the live session hook.
 */
module LiveAssistant {
  import opened Prelude
  import opened LiveApi
  import LiveSession

  /** `{ user, model }`: the text last reported for each speaker. */
  datatype TranscriptRecord = TranscriptRecord(user: string, model: string)

  /** Both lines start empty. */
  const InitialRecord := TranscriptRecord("", "")

  /** `onTranscript(text, type)`: the speaker's line becomes `text`, the other line is kept. */
  function OnTranscript(rec: TranscriptRecord, text: string, speaker: Speaker): (r: TranscriptRecord)
    ensures speaker == User ==> r.user == text && r.model == rec.model
    ensures speaker == Model ==> r.model == text && r.user == rec.user
  {
    match speaker
    case User => rec.(user := text)
    case Model => rec.(model := text)
  }

  /** The record after a sequence of callbacks, applied in order. */
  function ApplyAll(rec: TranscriptRecord, ts: seq<LiveSession.Transcript>): TranscriptRecord
  {
    if ts == [] then rec
    else
      var last := ts[|ts| - 1];
      OnTranscript(ApplyAll(rec, ts[..|ts| - 1]), last.text, last.speaker)
  }

  /** The text of the last callback for `speaker`, or `otherwise` when there is none. */
  function Latest(ts: seq<LiveSession.Transcript>, speaker: Speaker, otherwise: string): string
  {
    if ts == [] then otherwise
    else if ts[|ts| - 1].speaker == speaker then ts[|ts| - 1].text
    else Latest(ts[..|ts| - 1], speaker, otherwise)
  }

  /** Deltas replace rather than accumulate: each line shows only the latest text for its speaker. */
  lemma {:induction false} LatestWins(rec: TranscriptRecord, ts: seq<LiveSession.Transcript>)
    ensures ApplyAll(rec, ts) == TranscriptRecord(Latest(ts, User, rec.user), Latest(ts, Model, rec.model))
    decreases |ts|
  {
    if ts != [] {
      LatestWins(rec, ts[..|ts| - 1]);
    }
  }

  /** After one server message each line holds that message's non-empty transcription, if it had one. */
  lemma MessageUpdatesRecord(rec: TranscriptRecord, msg: ServerMessage)
    ensures var r := ApplyAll(rec, LiveSession.Transcripts(msg));
      && r.user == (if IsTruthy(msg.inputTranscription) then msg.inputTranscription.value else rec.user)
      && r.model == (if IsTruthy(msg.outputTranscription) then msg.outputTranscription.value else rec.model)
  {
    var ts := LiveSession.Transcripts(msg);
    LatestWins(rec, ts);
    if |ts| == 2 {
      assert ts[..1] == [ts[0]];
    }
  }

  /** `toggleConnection`: disconnects a connected session, connects one that is not. */
  method ToggleConnection(session: LiveSession.LiveSessionHook, micGranted: bool)
    requires session.Valid()
    modifies session
    ensures session.Valid()
    ensures old(session.isConnected) ==>
      && session.ConnectionState() == LiveSession.Disconnected(old(session.ConnectionState()))
      && session.SchedulerState() == old(session.SchedulerState()).(isSpeaking := false)
    ensures !old(session.isConnected) ==>
      && session.ConnectionState() == LiveSession.Connected(old(session.ConnectionState()), micGranted)
      && session.SchedulerState() == old(session.SchedulerState())
  {
    if session.isConnected {
      session.Disconnect();
    } else {
      session.Connect(micGranted);
    }
  }
}
