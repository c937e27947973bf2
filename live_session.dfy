/**
 * The full-duplex voice session hook: connection flags, the references it holds
 * to audio contexts, the microphone stream and the capture processor, and the
 * gapless playback scheduler driven by server messages.
 *
 * Time is counted in ticks of the playback clock, one tick per sample frame at
 * the 24 kHz output rate, so a decoded chunk's duration is its frame count.
 * Each playing `AudioBufferSourceNode` is an id in `sources`, mapped to the
 * start time it was given and its duration.
 */
module LiveSession {
  import opened Prelude
  import opened LiveApi
  import Base64
  import PcmCodec

  /** The sample rate the session plays back at, in ticks per second. */
  const OutputSampleRate: nat := 24000

  /** A scheduled chunk of audio: the tick it starts at and how many ticks it lasts. */
  datatype Playback = Playback(start: int, duration: nat) {
    function End(): int { start + duration }
  }

  /** Two chunks do not overlap in time. */
  predicate Disjoint(p: Playback, q: Playback) {
    p.End() <= q.start || q.End() <= p.start
  }

  /** `Math.max(nextStartTime, currentTime)`: the next chunk starts when the last one ends, or now if that is past. */
  function StartTime(next: int, now: int): (s: int)
    ensures s >= next && s >= now
    ensures s == next || s == now
  {
    if next >= now then next else now
  }

  /** A transcript callback invocation: `onTranscript(text, speaker)`. */
  datatype Transcript = Transcript(text: string, speaker: Speaker)

  /**
   * The transcript callbacks a message fires, in order: the user's input text,
   * then the model's output text, each only when it is non-empty.
   */
  function Transcripts(msg: ServerMessage): (t: seq<Transcript>)
    ensures forall i :: 0 <= i < |t| ==> t[i].text != ""
    ensures forall i :: 0 <= i < |t| && t[i].speaker == User ==> msg.inputTranscription == Some(t[i].text)
    ensures forall i :: 0 <= i < |t| && t[i].speaker == Model ==> msg.outputTranscription == Some(t[i].text)
    ensures IsTruthy(msg.inputTranscription) <==> |t| > 0 && t[0].speaker == User
    ensures IsTruthy(msg.outputTranscription) <==> |t| > 0 && t[|t| - 1].speaker == Model
  {
    (if IsTruthy(msg.inputTranscription) then [Transcript(msg.inputTranscription.value, User)] else [])
    + (if IsTruthy(msg.outputTranscription) then [Transcript(msg.outputTranscription.value, Model)] else [])
  }

  /**
   * How many ticks the audio in `base64` lasts once decoded as mono 16-bit PCM,
   * or `None` when decoding throws: `atob` rejects it, the byte count is odd,
   * or no frame results.
   */
  function ChunkFrames(base64: string): (f: Option<nat>)
    ensures f.Some? ==> f.value >= 1
    ensures f.Some? ==> Base64.Decode(base64).Some? && |Base64.Decode(base64).value| == 2 * f.value
    ensures Base64.Decode(base64).Some? && |Base64.Decode(base64).value| % 2 == 0 && |Base64.Decode(base64).value| >= 2
      ==> f.Some?
  {
    match Base64.Decode(base64)
    case None => None
    case Some(b) => if |b| % 2 == 0 && |b| / 2 >= 1 then Some(|b| / 2) else None
  }

  /**
   * The decoding step of `onmessage`'s audio: `decode`, then `decodeAudioData`
   * with one channel. The chunk's frame count, or `None` when either throws.
   */
  method DecodeChunk(base64: string) returns (frames: Option<nat>)
    ensures frames == ChunkFrames(base64)
  {
    var audioData := PcmCodec.Decode(base64);
    if audioData.None? {
      return None;
    }
    var buffer := PcmCodec.DecodeAudioData(audioData.value, 1);
    if buffer.Failure? {
      assert ChunkFrames(base64).None?;
      return None;
    }
    frames := Some(buffer.value.Length1);
  }

  /** The playback half of the hook's state. */
  datatype Scheduler = Scheduler(
    nextStartTime: int,
    sources: map<nat, Playback>,
    isSpeaking: bool,
    nextSourceId: nat)

  /**
   * The scheduling invariant: source ids are below the id counter, every playing
   * chunk ends by `nextStartTime`, and no two playing chunks overlap.
   */
  predicate WellScheduled(s: Scheduler) {
    && (forall id :: id in s.sources ==> id < s.nextSourceId)
    && (forall id :: id in s.sources ==> s.sources[id].End() <= s.nextStartTime)
    && (forall a, b {:trigger Disjoint(s.sources[a], s.sources[b])} ::
          a in s.sources && b in s.sources && a != b ==> Disjoint(s.sources[a], s.sources[b]))
  }

  /** A chunk arriving at tick `now` and lasting `duration` ticks. */
  datatype Arrival = Arrival(now: int, duration: nat)

  /** A decoded chunk arriving at `a.now` and lasting `a.duration`: it plays as the next source id from `max(next, now)`, and `next` moves past it. */
  function Placed(s: Scheduler, a: Arrival): Scheduler
  {
    var start := StartTime(s.nextStartTime, a.now);
    Scheduler(start + a.duration, s.sources[s.nextSourceId := Playback(start, a.duration)], true, s.nextSourceId + 1)
  }

  /**
   * An audio chunk arrives at tick `now`: speaking starts, the start time moves to
   * `max(next, now)`, and if the chunk decodes a new source plays it from there
   * and `next` moves past it. The flag says whether decoding succeeded.
   */
  function Enqueued(s: Scheduler, base64: string, now: int): (r: (Scheduler, bool))
    ensures r.1 <==> ChunkFrames(base64).Some?
    ensures r.0.isSpeaking && r.0.nextStartTime >= now && r.0.nextStartTime >= s.nextStartTime
    ensures !r.1 ==> r.0.sources == s.sources && r.0.nextSourceId == s.nextSourceId
    ensures r.1 ==> && r.0.nextSourceId == s.nextSourceId + 1
                    && s.nextSourceId in r.0.sources
                    && r.0.sources[s.nextSourceId].End() == r.0.nextStartTime
  {
    var start := StartTime(s.nextStartTime, now);
    match ChunkFrames(base64)
    case None => (s.(nextStartTime := start, isSpeaking := true), false)
    case Some(frames) => (Placed(s, Arrival(now, frames)), true)
  }

  /**
   * An interruption: every source stops, nothing is left playing, the start time
   * resets to 0. Whatever the state before, the invariant holds after, and ids
   * already given out are not given out again.
   */
  function Interrupted(s: Scheduler): (r: Scheduler)
    ensures WellScheduled(r)
    ensures r.nextSourceId == s.nextSourceId
  {
    s.(nextStartTime := 0, sources := map[], isSpeaking := false)
  }

  /** The `ended` event of source `id`: it leaves the set, and speaking stops when the set is empty. */
  function SourceEnded(s: Scheduler, id: nat): (r: Scheduler)
    ensures id !in r.sources
    ensures r.isSpeaking ==> s.isSpeaking && r.sources != map[]
    ensures r.nextStartTime == s.nextStartTime && r.nextSourceId == s.nextSourceId
  {
    var rest := s.sources - {id};
    s.(sources := rest, isSpeaking := if rest == map[] then false else s.isSpeaking)
  }

  /** A message carries audio that is played when it is non-empty and a playback context exists. */
  predicate PlaysAudio(msg: ServerMessage, hasAudioContext: bool) {
    IsTruthy(msg.audio) && hasAudioContext
  }

  /**
   * The scheduler after one message: its audio first, then its interruption.
   * When the audio fails to decode the handler throws and the interruption is
   * not reached.
   */
  function AfterMessage(s: Scheduler, msg: ServerMessage, now: int, hasAudioContext: bool): (r: Scheduler)
    ensures !PlaysAudio(msg, hasAudioContext) && !msg.interrupted ==> r == s
    ensures msg.interrupted && (PlaysAudio(msg, hasAudioContext) ==> ChunkFrames(msg.audio.value).Some?) ==>
      r.sources == map[] && !r.isSpeaking && r.nextStartTime == 0
    ensures PlaysAudio(msg, hasAudioContext) && ChunkFrames(msg.audio.value).None? ==>
      r.sources == s.sources && r.isSpeaking
  {
    var (afterAudio, completed) :=
      if PlaysAudio(msg, hasAudioContext) then Enqueued(s, msg.audio.value, now) else (s, true);
    if completed && msg.interrupted then Interrupted(afterAudio) else afterAudio
  }

  /**
   * A decoded chunk starts no earlier than `now` and no earlier than the end of
   * every chunk still playing; it becomes the only new source, and the
   * scheduling invariant is kept.
   */
  lemma EnqueuedSchedulesAfterAll(s: Scheduler, base64: string, now: int)
    requires WellScheduled(s)
    ensures var (r, ok) := Enqueued(s, base64, now);
      && WellScheduled(r)
      && r.isSpeaking
      && r.nextStartTime >= now
      && (ok <==> ChunkFrames(base64).Some?)
      && (!ok ==> r.sources == s.sources)
      && (ok ==>
            && s.nextSourceId !in s.sources
            && r.sources.Keys == s.sources.Keys + {s.nextSourceId}
            && r.sources[s.nextSourceId].start == StartTime(s.nextStartTime, now)
            && r.nextStartTime == r.sources[s.nextSourceId].End()
            && (forall id :: id in s.sources ==>
                  r.sources[id] == s.sources[id] && s.sources[id].End() <= r.sources[s.nextSourceId].start))
  {
    EnqueuedKeepsWellScheduled(s, base64, now);
  }

  /** The scheduling invariant survives an audio chunk, decoded or not. */
  lemma EnqueuedKeepsWellScheduled(s: Scheduler, base64: string, now: int)
    requires WellScheduled(s)
    ensures WellScheduled(Enqueued(s, base64, now).0)
  {
    var (r, ok) := Enqueued(s, base64, now);
    if ok {
      forall a, b | a in r.sources && b in r.sources && a != b
        ensures Disjoint(r.sources[a], r.sources[b])
      {
        if a != s.nextSourceId && b != s.nextSourceId {
          assert Disjoint(s.sources[a], s.sources[b]);
        }
      }
    }
  }

  /** Whether the model is speaking has no bearing on the scheduling invariant. */
  lemma SpeakingKeepsWellScheduled(s: Scheduler, speaking: bool)
    requires WellScheduled(s)
    ensures WellScheduled(s.(isSpeaking := speaking))
  {
  }

  /** An interruption empties the set and stops speaking whatever was playing, keeping the invariant. */
  lemma InterruptedStopsEverything(s: Scheduler)
    ensures WellScheduled(s) ==> WellScheduled(Interrupted(s))
    ensures Interrupted(s).sources == map[] && !Interrupted(s).isSpeaking && Interrupted(s).nextStartTime == 0
  {
  }

  /**
   * `ended` removes exactly that source, and speaking is false afterwards exactly
   * when no source is left (or it already was false).
   */
  lemma SourceEndedRemovesOnlyIt(s: Scheduler, id: nat)
    requires WellScheduled(s)
    ensures var r := SourceEnded(s, id);
      && WellScheduled(r)
      && r.sources.Keys == s.sources.Keys - {id}
      && (forall other :: other in r.sources ==> r.sources[other] == s.sources[other])
      && r.nextStartTime == s.nextStartTime
      && (r.isSpeaking <==> s.isSpeaking && |r.sources| > 0)
  {
  }

  /** Audio and an interruption in the same message: the interruption comes second and cancels that audio too. */
  lemma InterruptCancelsSameMessageAudio(s: Scheduler, msg: ServerMessage, now: int)
    requires PlaysAudio(msg, true) && msg.interrupted && ChunkFrames(msg.audio.value).Some?
    ensures AfterMessage(s, msg, now, true) == Interrupted(Enqueued(s, msg.audio.value, now).0)
    ensures AfterMessage(s, msg, now, true).sources == map[]
    ensures !AfterMessage(s, msg, now, true).isSpeaking
  {
  }

  /**
   * Resetting `nextStartTime` to 0 rather than to the clock makes no difference
   * to the next chunk after an interruption: it starts at `now`.
   */
  lemma InterruptThenEnqueueStartsNow(s: Scheduler, base64: string, now: int)
    requires now >= 0 && ChunkFrames(base64).Some?
    ensures var (r, ok) := Enqueued(Interrupted(s), base64, now);
      ok && r.sources == map[s.nextSourceId := Playback(now, ChunkFrames(base64).value)]
  {
  }

  /**
   * `disconnect` keeps `nextStartTime`, and a reconnect does not touch it, while
   * the new output context's clock starts again at 0: the first decoded chunk
   * after a reconnect, arriving before the old schedule's end, waits until then.
   */
  lemma ReconnectWaitsForOldSchedule(s: Scheduler, base64: string, now: int)
    requires ChunkFrames(base64).Some?
    requires 0 <= now <= s.nextStartTime
    ensures var (r, ok) := Enqueued(s.(isSpeaking := false), base64, now);
      ok && r.sources[s.nextSourceId] == Playback(s.nextStartTime, ChunkFrames(base64).value)
  {
  }

  /** Every message keeps the scheduling invariant. */
  lemma AfterMessageWellScheduled(s: Scheduler, msg: ServerMessage, now: int, hasAudioContext: bool)
    requires WellScheduled(s)
    ensures WellScheduled(AfterMessage(s, msg, now, hasAudioContext))
  {
    if PlaysAudio(msg, hasAudioContext) {
      EnqueuedKeepsWellScheduled(s, msg.audio.value, now);
    }
  }

  /** The start times given to chunks that arrive one after another and all decode. */
  function Schedule(next: int, arrivals: seq<Arrival>): (starts: seq<int>)
    ensures |starts| == |arrivals|
    decreases |arrivals|
  {
    if arrivals == [] then []
    else
      var start := StartTime(next, arrivals[0].now);
      [start] + Schedule(start + arrivals[0].duration, arrivals[1..])
  }

  /** `nextStartTime` once all the chunks are scheduled. */
  function ScheduleEnd(next: int, arrivals: seq<Arrival>): int
    decreases |arrivals|
  {
    if arrivals == [] then next
    else ScheduleEnd(StartTime(next, arrivals[0].now) + arrivals[0].duration, arrivals[1..])
  }

  /**
   * Chunks never start before they arrive, and consecutive chunks never overlap:
   * each starts no earlier than the previous one ends, and the last one ends at
   * the final `nextStartTime`.
   */
  lemma {:induction false} ScheduleNoOverlap(next: int, arrivals: seq<Arrival>)
    ensures var starts := Schedule(next, arrivals);
      && (forall k :: 0 <= k < |arrivals| ==> starts[k] >= arrivals[k].now && starts[k] >= next)
      && (forall k :: 0 <= k < |arrivals| - 1 ==> starts[k + 1] >= starts[k] + arrivals[k].duration)
      && (|arrivals| > 0 ==> ScheduleEnd(next, arrivals) == starts[|arrivals| - 1] + arrivals[|arrivals| - 1].duration)
      && ScheduleEnd(next, arrivals) >= next
    decreases |arrivals|
  {
    if arrivals != [] {
      var start := StartTime(next, arrivals[0].now);
      ScheduleNoOverlap(start + arrivals[0].duration, arrivals[1..]);
    }
  }

  /**
   * When every chunk arrives before the chunks ahead of it have finished, they
   * play back to back: each starts exactly when the previous one ends.
   */
  lemma {:induction false} ScheduleBackToBack(next: int, arrivals: seq<Arrival>)
    requires forall k :: 0 <= k < |arrivals| ==> arrivals[k].now <= ScheduleEnd(next, arrivals[..k])
    ensures var starts := Schedule(next, arrivals);
      && (|arrivals| > 0 ==> starts[0] == next)
      && (forall k :: 0 <= k < |arrivals| - 1 ==> starts[k + 1] == starts[k] + arrivals[k].duration)
    decreases |arrivals|
  {
    if arrivals != [] {
      assert arrivals[..0] == [];
      var start := StartTime(next, arrivals[0].now);
      var rest := arrivals[1..];
      forall k | 0 <= k < |rest|
        ensures rest[k].now <= ScheduleEnd(start + arrivals[0].duration, rest[..k])
      {
        assert arrivals[k + 1].now <= ScheduleEnd(next, arrivals[..k + 1]);
        assert arrivals[..k + 1][1..] == rest[..k];
      }
      ScheduleBackToBack(start + arrivals[0].duration, rest);
    }
  }

  /** Chunks of 200, 300 and 150 ms at 24 kHz, all arriving at tick 0, start at 0, 200 and 500 ms and end at 650 ms. */
  lemma ScheduleExample()
    ensures Schedule(0, [Arrival(0, 4800), Arrival(0, 7200), Arrival(0, 3600)]) == [0, 4800, 12000]
    ensures ScheduleEnd(0, [Arrival(0, 4800), Arrival(0, 7200), Arrival(0, 3600)]) == 15600
    ensures 15600 * 1000 / OutputSampleRate == 650
  {
  }

  /** An audio chunk as it reaches `playAudio`: its base64 text and the clock when it arrives. */
  datatype AudioChunk = AudioChunk(base64: string, now: int)

  /** The scheduler after the chunks are enqueued one after another. */
  function EnqueuedAll(s: Scheduler, chunks: seq<AudioChunk>): Scheduler
    decreases |chunks|
  {
    if chunks == [] then s
    else EnqueuedAll(Enqueued(s, chunks[0].base64, chunks[0].now).0, chunks[1..])
  }

  /** Every chunk decodes. */
  predicate AllDecode(chunks: seq<AudioChunk>) {
    forall k :: 0 <= k < |chunks| ==> ChunkFrames(chunks[k].base64).Some?
  }

  /** The arrival times and decoded lengths of chunks that all decode. */
  function Arrivals(chunks: seq<AudioChunk>): (a: seq<Arrival>)
    requires AllDecode(chunks)
    ensures |a| == |chunks|
    ensures forall k :: 0 <= k < |a| ==> a[k] == Arrival(chunks[k].now, ChunkFrames(chunks[k].base64).value)
  {
    seq(|chunks|, k requires 0 <= k < |chunks| => Arrival(chunks[k].now, ChunkFrames(chunks[k].base64).value))
  }

  /** The scheduler after the arrivals are placed one after another. */
  function PlacedAll(s: Scheduler, arrivals: seq<Arrival>): Scheduler
    decreases |arrivals|
  {
    if arrivals == [] then s else PlacedAll(Placed(s, arrivals[0]), arrivals[1..])
  }

  /** Enqueueing chunks that all decode places their arrivals. */
  lemma {:induction false} EnqueuedAllPlaces(s: Scheduler, chunks: seq<AudioChunk>)
    requires AllDecode(chunks)
    ensures EnqueuedAll(s, chunks) == PlacedAll(s, Arrivals(chunks))
    decreases |chunks|
  {
    if chunks != [] {
      var rest := chunks[1..];
      assert AllDecode(rest) by {
        forall k | 0 <= k < |rest| ensures ChunkFrames(rest[k].base64).Some? {
          assert rest[k] == chunks[k + 1];
        }
      }
      assert Arrivals(chunks)[1..] == Arrivals(rest);
      EnqueuedAllPlaces(Enqueued(s, chunks[0].base64, chunks[0].now).0, rest);
    }
  }

  /** After the arrivals are placed, `nextStartTime` is `ScheduleEnd` and the id counter has moved past one id per arrival. */
  lemma {:induction false} PlacedAllEnd(s: Scheduler, arrivals: seq<Arrival>)
    ensures PlacedAll(s, arrivals).nextStartTime == ScheduleEnd(s.nextStartTime, arrivals)
    ensures PlacedAll(s, arrivals).nextSourceId == s.nextSourceId + |arrivals|
    decreases |arrivals|
  {
    if arrivals != [] {
      PlacedAllEnd(Placed(s, arrivals[0]), arrivals[1..]);
    }
  }

  /**
   * Placing never touches a source that was already there, and the only
   * sources it adds take the next `|arrivals|` ids.
   */
  lemma {:induction false} PlacedAllKeepsOthers(s: Scheduler, arrivals: seq<Arrival>)
    ensures var r := PlacedAll(s, arrivals);
      && (forall id :: id in s.sources && id < s.nextSourceId ==> id in r.sources && r.sources[id] == s.sources[id])
      && (forall id :: id in r.sources ==> id in s.sources || s.nextSourceId <= id < r.nextSourceId)
      && s.nextSourceId <= r.nextSourceId
    decreases |arrivals|
  {
    if arrivals != [] {
      PlacedAllKeepsOthers(Placed(s, arrivals[0]), arrivals[1..]);
    }
  }

  /** The `k`-th arrival plays as source `nextSourceId + k`, from the `k`-th start of `Schedule`. */
  lemma {:induction false} PlacedAllStarts(s: Scheduler, arrivals: seq<Arrival>)
    ensures var r := PlacedAll(s, arrivals);
      forall id :: s.nextSourceId <= id < s.nextSourceId + |arrivals| ==>
        && id in r.sources
        && r.sources[id] == Playback(Schedule(s.nextStartTime, arrivals)[id - s.nextSourceId], arrivals[id - s.nextSourceId].duration)
    decreases |arrivals|
  {
    if arrivals != [] {
      var s1 := Placed(s, arrivals[0]);
      var start := StartTime(s.nextStartTime, arrivals[0].now);
      var later := Schedule(s1.nextStartTime, arrivals[1..]);
      assert Schedule(s.nextStartTime, arrivals) == [start] + later;
      PlacedAllStarts(s1, arrivals[1..]);
      PlacedAllKeepsOthers(s1, arrivals[1..]);
      var r := PlacedAll(s, arrivals);
      forall id | s.nextSourceId <= id < s.nextSourceId + |arrivals|
        ensures id in r.sources
        ensures r.sources[id] == Playback(Schedule(s.nextStartTime, arrivals)[id - s.nextSourceId], arrivals[id - s.nextSourceId].duration)
      {
        var j := id - s.nextSourceId;
        if j == 0 {
          assert id in s1.sources && r.sources[id] == s1.sources[id];
        } else {
          assert r.sources[id] == Playback(later[j - 1], arrivals[1..][j - 1].duration);
          assert ([start] + later)[j] == later[j - 1];
        }
      }
    }
  }

  /**
   * The scheduler and `Schedule` agree: after chunks that all decode,
   * `nextStartTime` is `ScheduleEnd`, the `k`-th chunk plays as source
   * `nextSourceId + k` from the `k`-th start of `Schedule`, the sources that
   * were there stay as they were, and no other source appears.
   */
  lemma EnqueuedAllFollowsSchedule(s: Scheduler, chunks: seq<AudioChunk>)
    requires AllDecode(chunks)
    ensures var r := EnqueuedAll(s, chunks);
      && r.nextStartTime == ScheduleEnd(s.nextStartTime, Arrivals(chunks))
      && r.nextSourceId == s.nextSourceId + |chunks|
      && (forall id :: s.nextSourceId <= id < s.nextSourceId + |chunks| ==>
            && id in r.sources
            && r.sources[id] == Playback(Schedule(s.nextStartTime, Arrivals(chunks))[id - s.nextSourceId],
                                         ChunkFrames(chunks[id - s.nextSourceId].base64).value))
      && (forall id :: id in s.sources && id < s.nextSourceId ==> id in r.sources && r.sources[id] == s.sources[id])
      && (forall id :: id in r.sources ==> id in s.sources || s.nextSourceId <= id < r.nextSourceId)
  {
    EnqueuedAllPlaces(s, chunks);
    PlacedAllEnd(s, Arrivals(chunks));
    PlacedAllKeepsOthers(s, Arrivals(chunks));
    PlacedAllStarts(s, Arrivals(chunks));
  }

  /** Sources `id` and `id + 1` both exist and the second starts when the first ends. */
  predicate PlaysRightAfter(sources: map<nat, Playback>, id: nat) {
    id in sources && id + 1 in sources && sources[id + 1].start == sources[id].End()
  }

  /**
   * A run of chunks that each arrive before the ones ahead of them have
   * finished is played gaplessly by the scheduler itself: each new source
   * starts when the one before it ends.
   */
  lemma EnqueuedAllBackToBack(s: Scheduler, chunks: seq<AudioChunk>)
    requires AllDecode(chunks)
    requires forall k :: 0 <= k < |chunks| ==> chunks[k].now <= ScheduleEnd(s.nextStartTime, Arrivals(chunks)[..k])
    ensures forall id :: s.nextSourceId <= id < s.nextSourceId + |chunks| - 1 ==> PlaysRightAfter(EnqueuedAll(s, chunks).sources, id)
  {
    EnqueuedAllFollowsSchedule(s, chunks);
    ScheduleBackToBack(s.nextStartTime, Arrivals(chunks));
  }

  /** Whether an `AudioContext` reference is null, holds a running context, or a closed one. */
  datatype ContextState = NoContext | Running | Closed

  /**
   * The connection half of the hook's state: the connected flag, the two audio
   * contexts, whether a microphone stream, a capture processor and a session are
   * held, and whether the session has been asked to close.
   */
  datatype Connection = Connection(
    isConnected: bool,
    inputContext: ContextState,
    audioContext: ContextState,
    hasStream: bool,
    hasProcessor: bool,
    hasSession: bool,
    sessionCloseRequested: bool)

  /**
   * The connection state `connect` leaves: both audio contexts are running; a
   * refused microphone leaves the hook disconnected with no new stream or
   * session; a granted one holds the stream and requests the session, whose
   * `onopen` connects later. The newly requested session has no close request
   * pending; a refusal leaves the request as it was. The processor is left alone.
   */
  function Connected(c: Connection, micGranted: bool): (r: Connection)
    ensures r.inputContext == Running && r.audioContext == Running
    ensures !micGranted ==> !r.isConnected && r.hasStream == c.hasStream && r.hasSession == c.hasSession
    ensures micGranted ==> r.hasStream && r.hasSession && r.isConnected == c.isConnected
    ensures micGranted ==> !r.sessionCloseRequested
    ensures !micGranted ==> r.sessionCloseRequested == c.sessionCloseRequested
    ensures r.hasProcessor == c.hasProcessor
  {
    if micGranted then
      c.(inputContext := Running, audioContext := Running, hasStream := true, hasSession := true, sessionCloseRequested := false)
    else c.(inputContext := Running, audioContext := Running, isConnected := false)
  }

  /**
   * The connection state `disconnect` leaves: not connected, no processor and no
   * stream, every context that was created closed, and a close requested of any
   * session that was requested.
   */
  function Disconnected(c: Connection): (r: Connection)
    ensures !r.isConnected && !r.hasProcessor && !r.hasStream
    ensures r.inputContext != Running && r.audioContext != Running
    ensures r.inputContext == NoContext <==> c.inputContext == NoContext
    ensures r.audioContext == NoContext <==> c.audioContext == NoContext
    ensures r.hasSession == c.hasSession
    ensures r.sessionCloseRequested <==> c.sessionCloseRequested || c.hasSession
  {
    Connection(false,
               if c.inputContext == NoContext then NoContext else Closed,
               if c.audioContext == NoContext then NoContext else Closed,
               false, false, c.hasSession, c.sessionCloseRequested || c.hasSession)
  }

  /**
   * Connecting again after `disconnect`: the old session has been asked to
   * close, and the newly requested one, with a granted microphone, has not.
   */
  lemma ReconnectRequestsFreshSession(c: Connection)
    requires c.hasSession
    ensures Disconnected(c).sessionCloseRequested
    ensures var r := Connected(Disconnected(c), true);
      r.hasSession && r.hasStream && !r.sessionCloseRequested && !r.isConnected
  {
  }

  /** The `useLiveSession` hook: its React state, its refs, and its callbacks. */
  class LiveSessionHook {
    var isConnected: bool
    var isSpeaking: bool
    var nextStartTime: int
    var sources: map<nat, Playback>
    var nextSourceId: nat
    var inputContext: ContextState
    var audioContext: ContextState
    var hasStream: bool
    var hasProcessor: bool
    var hasSession: bool
    var sessionCloseRequested: bool

    /** The playback part of the state. */
    function SchedulerState(): Scheduler
      reads this
    {
      Scheduler(nextStartTime, sources, isSpeaking, nextSourceId)
    }

    /** The connection part of the state: the flag and the references the hook holds. */
    function ConnectionState(): Connection
      reads this
    {
      Connection(isConnected, inputContext, audioContext, hasStream, hasProcessor, hasSession, sessionCloseRequested)
    }

    ghost predicate Valid()
      reads this
    {
      WellScheduled(SchedulerState())
    }

    /** The hook's state on first render. */
    constructor ()
      ensures Valid()
      ensures !isConnected && !isSpeaking && nextStartTime == 0 && sources == map[]
      ensures inputContext == NoContext && audioContext == NoContext
      ensures !hasStream && !hasProcessor && !hasSession && !sessionCloseRequested
    {
      isConnected, isSpeaking := false, false;
      nextStartTime, sources, nextSourceId := 0, map[], 0;
      inputContext, audioContext := NoContext, NoContext;
      hasStream, hasProcessor, hasSession, sessionCloseRequested := false, false, false, false;
    }

    /**
     * `connect`: creates both audio contexts, then asks for the microphone. A
     * refusal is caught and leaves the session disconnected; otherwise the
     * stream is kept and the session is requested, its callbacks coming later.
     */
    method Connect(micGranted: bool)
      requires Valid()
      modifies this
      ensures Valid()
      ensures ConnectionState() == Connected(old(ConnectionState()), micGranted)
      ensures SchedulerState() == old(SchedulerState())
    {
      inputContext := Running;
      audioContext := Running;
      if !micGranted {
        isConnected := false;
        return;
      }
      hasStream := true;
      hasSession := true;
      sessionCloseRequested := false;
    }

    /** `onopen`: connected; the capture processor starts when an input context and a stream are held. */
    method OnOpen()
      requires Valid()
      modifies this
      ensures Valid()
      ensures isConnected
      ensures hasProcessor == (old(hasProcessor) || (inputContext != NoContext && hasStream))
      ensures SchedulerState() == old(SchedulerState())
      ensures inputContext == old(inputContext) && audioContext == old(audioContext)
      ensures hasStream == old(hasStream) && hasSession == old(hasSession)
      ensures sessionCloseRequested == old(sessionCloseRequested)
    {
      isConnected := true;
      if inputContext == NoContext || !hasStream {
        return;
      }
      hasProcessor := true;
    }

    /**
     * `onaudioprocess`: a captured block of microphone samples is sent to the
     * session as a PCM blob once a session has been requested
     * (`PcmCodec.AudioProcessed`, shared with the dictation hook).
     */
    method OnAudioProcess(inputData: array<real>) returns (sent: Option<PcmCodec.Blob>)
      ensures hasSession ==>
        sent.Some? && sent.value.mimeType == PcmCodec.MimeType
        && Base64.Decode(sent.value.data) == Some(PcmCodec.PcmBytes(inputData[..]))
      ensures !hasSession ==> sent.None?
    {
      sent := PcmCodec.AudioProcessed(inputData, hasSession);
    }

    /**
     * The end of the audio part of `onmessage`: a new source of `duration` ticks
     * starts at `nextStartTime`, which then moves past it, and joins the set.
     */
    method StartSource(duration: nat)
      modifies this
      ensures SchedulerState() == old(SchedulerState()).(
        nextStartTime := old(nextStartTime) + duration,
        sources := old(sources)[old(nextSourceId) := Playback(old(nextStartTime), duration)],
        nextSourceId := old(nextSourceId) + 1)
      ensures ConnectionState() == old(ConnectionState())
    {
      var source := nextSourceId;
      nextSourceId := nextSourceId + 1;
      var playback := Playback(nextStartTime, duration);
      nextStartTime := nextStartTime + duration;
      sources := sources[source := playback];
    }

    /** The audio part of `onmessage`; returns false when decoding throws. */
    method PlayAudio(base64: string, now: int) returns (completed: bool)
      requires Valid()
      modifies this
      ensures Valid()
      ensures completed <==> ChunkFrames(base64).Some?
      ensures SchedulerState() == Enqueued(old(SchedulerState()), base64, now).0
      ensures ConnectionState() == old(ConnectionState())
    {
      ghost var before := SchedulerState();
      assert WellScheduled(Enqueued(before, base64, now).0) by {
        EnqueuedKeepsWellScheduled(before, base64, now);
      }
      isSpeaking := true;
      nextStartTime := StartTime(nextStartTime, now);
      var frames := DecodeChunk(base64);
      if frames.None? {
        return false;
      }
      StartSource(frames.value);
      completed := true;
    }

    /** The interruption part of `onmessage`: stops every source and returns the ids it stopped. */
    method Interrupt() returns (stopped: set<nat>)
      requires Valid()
      modifies this
      ensures Valid()
      ensures stopped == old(sources).Keys
      ensures SchedulerState() == Interrupted(old(SchedulerState()))
      ensures ConnectionState() == old(ConnectionState())
    {
      stopped := sources.Keys;
      sources := map[];
      nextStartTime := 0;
      isSpeaking := false;
    }

    /**
     * `onmessage` at playback-clock tick `now`: fires the transcript callbacks,
     * plays the audio, then handles an interruption.
     */
    method OnMessage(msg: ServerMessage, now: int) returns (transcripts: seq<Transcript>)
      requires Valid()
      modifies this
      ensures Valid()
      ensures transcripts == Transcripts(msg)
      ensures SchedulerState() == AfterMessage(old(SchedulerState()), msg, now, old(audioContext) != NoContext)
      ensures ConnectionState() == old(ConnectionState())
    {
      transcripts := Transcripts(msg);
      var completed := true;
      if PlaysAudio(msg, audioContext != NoContext) {
        completed := PlayAudio(msg.audio.value, now);
      }
      if completed && msg.interrupted {
        var _ := Interrupt();
      }
    }

    /** The `ended` event of source `id`. */
    method OnEnded(id: nat)
      requires Valid()
      modifies this
      ensures Valid()
      ensures SchedulerState() == SourceEnded(old(SchedulerState()), id)
      ensures ConnectionState() == old(ConnectionState())
    {
      ghost var before := SchedulerState();
      assert WellScheduled(SourceEnded(before, id)) by {
        SourceEndedRemovesOnlyIt(before, id);
      }
      sources := sources - {id};
      if sources == map[] {
        isSpeaking := false;
      }
      assert SchedulerState() == SourceEnded(before, id);
    }

    /** `onclose` and `onerror`: no longer connected, nothing else changes. */
    method OnCloseOrError()
      requires Valid()
      modifies this
      ensures Valid()
      ensures ConnectionState() == old(ConnectionState()).(isConnected := false)
      ensures SchedulerState() == old(SchedulerState())
    {
      isConnected := false;
    }

    /**
     * `disconnect`: asks an open session to close, drops the processor and the
     * stream, closes both audio contexts (the refs keep pointing at them), and
     * clears both flags. The playback schedule itself is left as it was.
     */
    method Disconnect()
      requires Valid()
      modifies this
      ensures Valid()
      ensures ConnectionState() == Disconnected(old(ConnectionState()))
      ensures SchedulerState() == old(SchedulerState()).(isSpeaking := false)
    {
      SpeakingKeepsWellScheduled(SchedulerState(), false);
      sessionCloseRequested := sessionCloseRequested || hasSession;
      hasProcessor := false;
      hasStream := false;
      inputContext := if inputContext == NoContext then NoContext else Closed;
      audioContext := if audioContext == NoContext then NoContext else Closed;
      isConnected := false;
      isSpeaking := false;
    }
  }
}
