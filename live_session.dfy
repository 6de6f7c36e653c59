/**
 * The reconnection state machine of the live voice session (components/LiveSession.tsx).
 *
 * `Step` is the reference definition: how each event the component reacts to changes its
 * state. The class `LiveSession` holds the same state as mutable fields and its handlers
 * change them in place; each handler is proved to do what `Step` says. Audio devices, the
 * network session and timers are left outside: what they do to the component arrives as
 * an `Event`.
 */
module Live {
  import opened Types
  import Base64
  import AudioUtils

  const MAX_RETRIES: nat := 3

  const UNSTABLE_MESSAGE: string := "Koneksi internet tidak stabil. Gagal menghubungkan kembali setelah beberapa percobaan."
  const MIC_MESSAGE: string := "Akses mikrofon ditolak atau tidak ditemukan."

  /** The length of a feedback tone, in seconds of the output clock. */
  const TONE_SECONDS: real := 0.15

  /** The error names `getUserMedia` reports for a blocked or missing microphone. */
  predicate IsMicrophoneError(name: string)
  {
    name == "NotAllowedError" || name == "NotFoundError"
  }

  /** The sample rate `decodeAudioData` is asked to use for the model's audio. */
  const OUTPUT_RATE: real := 24000.0

  /**
   * An audio chunk of the model's answer: the base64 `data` of its inline part, the output
   * clock `currentTime` when it arrives, and the playback source `source` a decoded chunk
   * is played by.
   */
  datatype Chunk = Chunk(source: nat, currentTime: real, data: string)

  /**
   * The frame count of the buffer `decodeAudioData(base64Decode(data), ctx, 24000)` builds
   * with one channel, or `None` where that call throws: `atob` rejects the data, the byte
   * count is odd, or there is no whole frame.
   */
  function DecodedFrames(data: string): (r: Option<nat>)
    ensures r.Some? ==> r.value >= 1
  {
    match Base64.Atob(data)
    case None => None
    case Some(binary) => if |binary| % 2 == 0 && |binary| / 2 >= 1 then Some(|binary| / 2) else None
  }

  /**
   * What happens to the component.
   * - `Start`: `startSession(isRetry)` is called; `failure` is the name of the error thrown
   *   inside its `try`, if any (getting the microphone or creating an audio context).
   * - `RetryTimerFires`: the reconnect timer `timer` runs its callback `startSession(true)`.
   * - `Open`, `Message`, `Closed`: the live session's callbacks (`Closed` is `onclose` or
   *   `onerror`). `Message` carries the `interrupted` flag, the audio chunk of the model
   *   turn if there is one, and the `turnComplete` flag.
   * - `Disconnect`: the end-session button or the unmount.
   * - `SourceEnded`: a playback source's `ended` event.
   */
  datatype Event =
    | Start(isRetry: bool, failure: Option<string>)
    | RetryTimerFires(timer: nat, failure: Option<string>)
    | Open
    | Message(interrupted: bool, audio: Option<Chunk>, turnComplete: bool)
    | Closed
    | Disconnect
    | SourceEnded(source: nat)

  /**
   * The component's state: `connectionState`, `errorMsg`, the refs `retryCountRef`,
   * `isIntentionalDisconnect` and `isResponseActive`, the reconnect timers that are
   * scheduled and neither fired nor cancelled, the timer `reconnectTimeoutRef` holds, the
   * id the next `setTimeout` returns, whether the output audio context exists, the
   * playback sources, and the output clock position `nextStartTimeRef`.
   */
  datatype LiveState = LiveState(
    state: ConnectionState,
    errorMsg: Option<string>,
    retryCount: int,
    intentionalDisconnect: bool,
    responseActive: bool,
    timers: set<nat>,
    timerRef: Option<nat>,
    nextTimer: nat,
    audioReady: bool,
    audioSources: set<nat>,
    nextStartTime: real)

  /** The state when the component mounts. */
  const Initial: LiveState :=
    LiveState(Disconnected, None, 0, false, false, {}, None, 1, false, {}, 0.0)

  /** `cleanupAudioResources`: stops all playback and closes the audio contexts. */
  function Cleanup(s: LiveState): LiveState
  {
    s.(audioSources := {}, audioReady := false)
  }

  /**
   * `handleConnectionLoss`. With retries left it schedules a new timer and stores it in
   * `reconnectTimeoutRef`, overwriting the timer held there, which stays scheduled.
   */
  function ConnectionLoss(s: LiveState): LiveState
  {
    if s.intentionalDisconnect then s
    else
      var c := Cleanup(s);
      if c.retryCount < MAX_RETRIES then
        c.(retryCount := c.retryCount + 1, state := Reconnecting,
           timers := c.timers + {c.nextTimer}, timerRef := Some(c.nextTimer), nextTimer := c.nextTimer + 1)
      else
        c.(state := Error, errorMsg := Some(UNSTABLE_MESSAGE))
  }

  /** `startSession(isRetry)` up to the point where getting the microphone succeeds or fails. */
  function StartSession(s: LiveState, isRetry: bool, failure: Option<string>): LiveState
  {
    var s1 := s.(errorMsg := None);
    var s2 := if !isRetry then s1.(state := Connecting, retryCount := 0) else s1;
    var s3 := s2.(intentionalDisconnect := false, audioReady := true);
    match failure
    case None => s3
    case Some(name) =>
      if IsMicrophoneError(name) then s3.(state := Error, errorMsg := Some(MIC_MESSAGE))
      else ConnectionLoss(s3)
  }

  function Max(a: real, b: real): real
  {
    if a >= b then a else b
  }

  /** The `turnComplete` branch of `onmessage`: the end tone, then the response is over. */
  function TurnEnd(s: LiveState, turnComplete: bool): LiveState
  {
    if turnComplete && s.responseActive then
      s.(responseActive := false,
         nextStartTime := if s.audioReady then s.nextStartTime + TONE_SECONDS else s.nextStartTime)
    else s
  }

  /**
   * The part of `onmessage` that runs before a chunk is decoded: its start is no earlier
   * than the output clock, after a start tone when no response was active.
   */
  function ChunkArrives(s: LiveState, c: Chunk): LiveState
  {
    var t := Max(s.nextStartTime, c.currentTime);
    s.(responseActive := true, nextStartTime := if !s.responseActive then t + TONE_SECONDS else t)
  }

  /** A decoded chunk of `frames` frames is played by its source and moves the clock on. */
  function ChunkPlays(s: LiveState, c: Chunk, frames: nat): LiveState
  {
    s.(audioSources := s.audioSources + {c.source}, nextStartTime := s.nextStartTime + frames as real / OUTPUT_RATE)
  }

  /**
   * The test guarding the audio branch of `onmessage`: a chunk whose data is not the empty
   * string (which JavaScript treats as false) and the output context present.
   */
  predicate EntersAudio(s: LiveState, audio: Option<Chunk>)
  {
    audio.Some? && audio.value.data != "" && s.audioReady
  }

  /**
   * `onmessage`. A chunk that fails to decode stops the handler after `ChunkArrives`: the
   * response stays active, no source is added and `turnComplete` is not looked at.
   */
  function OnMessage(s: LiveState, interrupted: bool, audio: Option<Chunk>, turnComplete: bool): LiveState
  {
    if interrupted then s.(audioSources := {}, nextStartTime := 0.0, responseActive := false)
    else if EntersAudio(s, audio) then
      match DecodedFrames(audio.value.data)
      case None => ChunkArrives(s, audio.value)
      case Some(frames) => TurnEnd(ChunkPlays(ChunkArrives(s, audio.value), audio.value, frames), turnComplete)
    else TurnEnd(s, turnComplete)
  }

  /** The timer `clearTimeout(reconnectTimeoutRef.current)` cancels: the one the ref holds. */
  function RefTimers(s: LiveState): set<nat>
  {
    match s.timerRef
    case None => {}
    case Some(id) => {id}
  }

  /** `disconnect`: it cancels only the timer held in `reconnectTimeoutRef`. */
  function DisconnectState(s: LiveState): LiveState
  {
    Cleanup(s.(intentionalDisconnect := true, timers := s.timers - RefTimers(s)))
      .(state := Disconnected, responseActive := false)
  }

  /** How one event changes the state. */
  function Step(s: LiveState, e: Event): LiveState
  {
    match e
    case Start(isRetry, failure) => StartSession(s, isRetry, failure)
    case RetryTimerFires(timer, failure) =>
      if timer in s.timers then StartSession(s.(timers := s.timers - {timer}), true, failure) else s
    case Open => s.(state := Connected, retryCount := 0)
    case Message(interrupted, audio, turnComplete) => OnMessage(s, interrupted, audio, turnComplete)
    case Closed => ConnectionLoss(s)
    case Disconnect => DisconnectState(s)
    case SourceEnded(source) => s.(audioSources := s.audioSources - {source})
  }

  /** The state after a sequence of events. */
  function Run(s: LiveState, events: seq<Event>): LiveState
    decreases |events|
  {
    if events == [] then s else Run(Step(s, events[0]), events[1..])
  }

  /** Running two sequences one after the other. */
  lemma {:induction false} RunSplit(s: LiveState, a: seq<Event>, b: seq<Event>)
    ensures Run(s, a + b) == Run(Run(s, a), b)
    decreases |a|
  {
    if a == [] {
      assert a + b == b;
    } else {
      assert (a + b)[0] == a[0] && (a + b)[1..] == a[1..] + b;
      RunSplit(Step(s, a[0]), a[1..], b);
    }
  }

  lemma RunTwo(s: LiveState, e0: Event, e1: Event)
    ensures Run(s, [e0, e1]) == Step(Step(s, e0), e1)
  {
    assert [e0, e1][1..] == [e1];
    assert [e1][1..] == [];
    assert Run(s, [e0, e1]) == Run(Step(s, e0), [e1]);
    assert Run(Step(s, e0), [e1]) == Run(Step(Step(s, e0), e1), []);
  }

  lemma RunThree(s: LiveState, e0: Event, e1: Event, e2: Event)
    ensures Run(s, [e0, e1, e2]) == Step(Step(Step(s, e0), e1), e2)
  {
    assert [e0, e1, e2][1..] == [e1, e2];
    RunTwo(Step(s, e0), e1, e2);
  }

  // ---------------------------------------------------------------------------------------
  // The retry counter and the timers
  // ---------------------------------------------------------------------------------------

  /** The retry counter lies within 0..MAX_RETRIES. */
  predicate RetryBounded(s: LiveState)
  {
    0 <= s.retryCount <= MAX_RETRIES
  }

  /** Every event keeps the retry counter within its bounds. */
  lemma StepKeepsRetryBound(s: LiveState, e: Event)
    requires RetryBounded(s)
    ensures RetryBounded(Step(s, e))
  {
  }

  /** From the initial state, the retry counter stays within 0..MAX_RETRIES whatever happens. */
  lemma {:induction false} RunKeepsRetryBound(s: LiveState, events: seq<Event>)
    requires RetryBounded(s)
    ensures RetryBounded(Run(s, events))
    decreases |events|
  {
    if events != [] {
      StepKeepsRetryBound(s, events[0]);
      RunKeepsRetryBound(Step(s, events[0]), events[1..]);
    }
  }

  lemma RetryBoundFromMount(events: seq<Event>)
    ensures RetryBounded(Run(Initial, events))
  {
    RunKeepsRetryBound(Initial, events);
  }

  /** Every pending timer, and the one the ref holds, was handed out before `nextTimer`. */
  predicate TimersIssued(s: LiveState)
  {
    (forall id :: id in s.timers ==> id < s.nextTimer) &&
    (s.timerRef.Some? ==> s.timerRef.value < s.nextTimer)
  }

  /** Every event keeps the timers below the next id. */
  lemma StepKeepsTimersIssued(s: LiveState, e: Event)
    requires TimersIssued(s)
    ensures TimersIssued(Step(s, e))
    ensures s.nextTimer <= Step(s, e).nextTimer
  {
    match e
    case Start(isRetry, failure) => StartKeepsTimersIssued(s, isRetry, failure);
    case RetryTimerFires(id, failure) => StartKeepsTimersIssued(s.(timers := s.timers - {id}), true, failure);
    case Message(interrupted, audio, turnComplete) =>
      var t := Step(s, e);
      assert t.timers == s.timers && t.timerRef == s.timerRef && t.nextTimer == s.nextTimer;
    case _ =>
  }

  /** A start, and the connection loss a failed start runs, keep the timers below the next id. */
  lemma StartKeepsTimersIssued(s: LiveState, isRetry: bool, failure: Option<string>)
    requires TimersIssued(s)
    ensures TimersIssued(StartSession(s, isRetry, failure))
    ensures s.nextTimer <= StartSession(s, isRetry, failure).nextTimer
  {
  }

  /**
   * An unintended loss with retries left counts one more retry, moves to `Reconnecting`
   * and schedules a new timer, which the ref now holds; the timers scheduled before stay
   * scheduled. Nothing but the audio resources changes besides.
   */
  lemma LossWithRetriesLeft(s: LiveState)
    requires !s.intentionalDisconnect && s.retryCount < MAX_RETRIES && TimersIssued(s)
    ensures var t := Step(s, Closed);
      t == s.(retryCount := s.retryCount + 1, state := Reconnecting,
              timers := s.timers + {s.nextTimer}, timerRef := Some(s.nextTimer),
              nextTimer := s.nextTimer + 1, audioSources := {}, audioReady := false) &&
      s.nextTimer !in s.timers && |t.timers| == |s.timers| + 1
  {
  }

  /**
   * An unintended loss once all retries are used moves to `Error` with the unstable-network
   * message, schedules nothing and leaves the counter as it was.
   */
  lemma LossAtLimit(s: LiveState)
    requires !s.intentionalDisconnect && s.retryCount == MAX_RETRIES
    ensures var t := Step(s, Closed);
      t.state == Error && t.errorMsg == Some(UNSTABLE_MESSAGE) &&
      t.retryCount == s.retryCount && t.timers == s.timers && t.timerRef == s.timerRef
  {
  }

  /**
   * Two losses in a row (`onerror` and then `onclose` of one socket) leave two timers
   * scheduled, and the ref holds only the second.
   */
  lemma TwoLossesTwoTimers(s: LiveState)
    requires !s.intentionalDisconnect && s.retryCount + 2 <= MAX_RETRIES && TimersIssued(s)
    ensures var t := Run(s, [Closed, Closed]);
      t.timers == s.timers + {s.nextTimer, s.nextTimer + 1} &&
      t.timerRef == Some(s.nextTimer + 1) && t.retryCount == s.retryCount + 2 &&
      |t.timers| == |s.timers| + 2
  {
    LossWithRetriesLeft(s);
    StepKeepsTimersIssued(s, Closed);
    var u := Step(s, Closed);
    LossWithRetriesLeft(u);
    RunTwo(s, Closed, Closed);
  }

  /**
   * A fresh start clears the error, moves to `Connecting` and resets the counter; a retry
   * start clears the error but keeps the state and the counter. Both clear the
   * intentional-disconnect flag.
   */
  lemma StartRules(s: LiveState)
    ensures var t := Step(s, Start(false, None));
      t.errorMsg.None? && t.state == Connecting && t.retryCount == 0 && !t.intentionalDisconnect
    ensures var t := Step(s, Start(true, None));
      t.errorMsg.None? && t.state == s.state && t.retryCount == s.retryCount && !t.intentionalDisconnect
  {
  }

  /**
   * A scheduled timer that fires restarts the session as a retry whatever the
   * intentional-disconnect flag says, and is no longer scheduled; a timer that is not
   * scheduled (cancelled, already fired, or never handed out) does nothing. So each timer
   * restarts the session at most once.
   */
  lemma TimerFiresOnce(s: LiveState, id: nat, first: Option<string>, second: Option<string>)
    requires TimersIssued(s)
    ensures id in s.timers ==>
      var t := Step(s, RetryTimerFires(id, None));
      !t.intentionalDisconnect && t.errorMsg.None? && t.state == s.state && id !in t.timers
    ensures id !in s.timers ==> Step(s, RetryTimerFires(id, first)) == s
    ensures Run(s, [RetryTimerFires(id, first), RetryTimerFires(id, second)]) == Step(s, RetryTimerFires(id, first))
  {
    var t := Step(s, RetryTimerFires(id, first));
    assert id !in t.timers;
    RunTwo(s, RetryTimerFires(id, first), RetryTimerFires(id, second));
  }

  /** `onopen` moves to `Connected` and resets the counter. */
  lemma OpenConnects(s: LiveState)
    ensures Step(s, Open).state == Connected && Step(s, Open).retryCount == 0
  {
  }

  /**
   * A blocked or missing microphone ends in `Error` with the microphone message and uses
   * no retry; any other start failure is handled as a connection loss.
   */
  lemma StartFailure(s: LiveState, isRetry: bool, name: string)
    ensures var t := Step(s, Start(isRetry, Some(name)));
      var started := Step(s, Start(isRetry, None));
      (IsMicrophoneError(name) ==>
        t.state == Error && t.errorMsg == Some(MIC_MESSAGE) && t.retryCount == started.retryCount &&
        t.timers == s.timers) &&
      (!IsMicrophoneError(name) ==> t == ConnectionLoss(started))
  {
  }

  /** A failed fresh start that is not a microphone error counts as the first retry. */
  lemma FreshStartFailureRetries(s: LiveState, name: string)
    requires !IsMicrophoneError(name)
    ensures Step(s, Start(false, Some(name))).state == Reconnecting
    ensures Step(s, Start(false, Some(name))).retryCount == 1
  {
  }

  /**
   * A failure other than the microphone's, such as creating an audio context, goes to the
   * `catch` of `startSession`: the same state as a start that succeeds and then loses its
   * connection.
   */
  lemma OtherStartFailureIsLoss(s: LiveState, isRetry: bool, name: string)
    requires !IsMicrophoneError(name)
    ensures Step(s, Start(isRetry, Some(name))) == Run(s, [Start(isRetry, None), Closed])
  {
    RunTwo(s, Start(isRetry, None), Closed);
  }

  // ---------------------------------------------------------------------------------------
  // Disconnecting
  // ---------------------------------------------------------------------------------------

  /** No loss and no timer has any effect: the flag is set and no timer is scheduled. */
  predicate Quiet(s: LiveState)
  {
    s.intentionalDisconnect && s.timers == {}
  }

  /**
   * `disconnect` leaves the state `Disconnected`, the response inactive, playback stopped
   * and the flag set; of the scheduled timers it cancels the one the ref holds and no
   * other.
   */
  lemma DisconnectRules(s: LiveState)
    ensures var t := Step(s, Disconnect);
      t.state == Disconnected && !t.responseActive && t.audioSources == {} && t.intentionalDisconnect &&
      (t.timerRef.Some? ==> t.timerRef.value !in t.timers) &&
      (forall id :: id in t.timers <==> id in s.timers && Some(id) != s.timerRef)
  {
  }

  /** `disconnect` makes the session quiet exactly when no timer but the ref's is scheduled. */
  lemma DisconnectQuietIff(s: LiveState)
    ensures Quiet(Step(s, Disconnect)) <==> (forall id :: id in s.timers ==> Some(id) == s.timerRef)
  {
    var t := Step(s, Disconnect);
    if Quiet(t) {
      forall id | id in s.timers ensures Some(id) == s.timerRef {
        assert id !in t.timers;
      }
    } else {
      var id :| id in t.timers;
      assert id in s.timers && Some(id) != s.timerRef;
    }
  }

  /** Every timer `disconnect` leaves scheduled restarts the session when it fires. */
  lemma DisconnectLeavesStaleTimers(s: LiveState, id: nat)
    requires id in Step(s, Disconnect).timers
    ensures id in s.timers && Some(id) != s.timerRef
    ensures !Step(Step(s, Disconnect), RetryTimerFires(id, None)).intentionalDisconnect
  {
  }

  /** In a quiet session, a loss and any timer are no-ops. */
  lemma QuietIgnoresLoss(s: LiveState, id: nat, failure: Option<string>)
    requires Quiet(s)
    ensures Step(s, Closed) == s && Step(s, RetryTimerFires(id, failure)) == s
  {
  }

  /** Only `startSession` ends quietness. */
  lemma QuietUntilStart(s: LiveState, e: Event)
    requires Quiet(s) && !e.Start?
    ensures Quiet(Step(s, e))
  {
  }

  /**
   * From a quiet session, as long as `startSession` is not called, every loss and every
   * timer is a no-op, and the state never becomes `Reconnecting` or `Error`.
   */
  lemma {:induction false} AfterDisconnect(s: LiveState, events: seq<Event>)
    requires Quiet(s) && (s.state == Disconnected || s.state == Connected)
    requires forall i :: 0 <= i < |events| ==> !events[i].Start?
    ensures var t := Run(s, events);
      Quiet(t) && (t.state == Disconnected || t.state == Connected) &&
      Step(t, Closed) == t
    decreases |events|
  {
    if events != [] {
      QuietUntilStart(s, events[0]);
      AfterDisconnect(Step(s, events[0]), events[1..]);
    }
  }

  /**
   * The first timer of two losses survives `disconnect` and, when it fires, clears the
   * flag, so the session the user ended opens and shows `Connected` again.
   */
  lemma StaleTimerReconnects(s: LiveState)
    requires !s.intentionalDisconnect && s.retryCount + 2 <= MAX_RETRIES && TimersIssued(s)
    ensures var t := Run(s, [Closed, Closed, Disconnect, RetryTimerFires(s.nextTimer, None), Open]);
      t.state == Connected && !t.intentionalDisconnect
  {
    TwoLossesTwoTimers(s);
    var r := RetryTimerFires(s.nextTimer, None);
    var u := Run(s, [Closed, Closed]);
    RunSplit(s, [Closed, Closed], [Disconnect, r, Open]);
    assert [Closed, Closed] + [Disconnect, r, Open] == [Closed, Closed, Disconnect, r, Open];
    StaleTimerAfterDisconnect(u, s.nextTimer);
  }

  /** A scheduled timer other than the ref's survives `disconnect` and reopens the session. */
  lemma StaleTimerAfterDisconnect(u: LiveState, id: nat)
    requires id in u.timers && u.timerRef != Some(id)
    ensures var t := Run(u, [Disconnect, RetryTimerFires(id, None), Open]);
      t.state == Connected && !t.intentionalDisconnect
  {
    var v := Step(u, Disconnect);
    assert id in v.timers;
    var w := Step(v, RetryTimerFires(id, None));
    assert !w.intentionalDisconnect;
    RunThree(u, Disconnect, RetryTimerFires(id, None), Open);
  }

  /** The corrected `disconnect`: it cancels every scheduled timer. */
  function DisconnectAll(s: LiveState): (t: LiveState)
    ensures t == DisconnectState(s).(timers := {})
  {
    Cleanup(s.(intentionalDisconnect := true, timers := {})).(state := Disconnected, responseActive := false)
  }

  /** `Step` with the corrected `disconnect`. */
  function CorrectedStep(s: LiveState, e: Event): LiveState
  {
    if e.Disconnect? then DisconnectAll(s) else Step(s, e)
  }

  function CorrectedRun(s: LiveState, events: seq<Event>): LiveState
    decreases |events|
  {
    if events == [] then s else CorrectedRun(CorrectedStep(s, events[0]), events[1..])
  }

  /**
   * With the corrected `disconnect`, whatever timers were scheduled, the session stays
   * quiet and never becomes `Reconnecting` or `Error` until `startSession` is called.
   */
  lemma {:induction false} CorrectedQuietAfterDisconnect(s: LiveState, events: seq<Event>)
    requires forall i :: 0 <= i < |events| ==> !events[i].Start?
    ensures var t := CorrectedRun(s, [Disconnect] + events);
      Quiet(t) && (t.state == Disconnected || t.state == Connected)
  {
    assert CorrectedRun(s, [Disconnect] + events) == CorrectedRun(DisconnectAll(s), events) by {
      assert ([Disconnect] + events)[1..] == events;
    }
    CorrectedRunQuiet(DisconnectAll(s), events);
  }

  lemma {:induction false} CorrectedRunQuiet(s: LiveState, events: seq<Event>)
    requires Quiet(s) && (s.state == Disconnected || s.state == Connected)
    requires forall i :: 0 <= i < |events| ==> !events[i].Start?
    ensures var t := CorrectedRun(s, events);
      Quiet(t) && (t.state == Disconnected || t.state == Connected)
    decreases |events|
  {
    if events != [] {
      QuietUntilStart(s, events[0]);
      CorrectedRunQuiet(CorrectedStep(s, events[0]), events[1..]);
    }
  }

  /** The input of `StaleTimerReconnects` leaves the corrected session ended. */
  lemma CorrectedStaleTimer(s: LiveState)
    ensures var t := CorrectedRun(s, [Closed, Closed, Disconnect, RetryTimerFires(s.nextTimer, None), Open]);
      t.intentionalDisconnect && t.timers == {}
  {
    var r := RetryTimerFires(s.nextTimer, None);
    var u := CorrectedStep(CorrectedStep(s, Closed), Closed);
    var evs := [Closed, Closed, Disconnect, r, Open];
    assert evs[1..] == [Closed, Disconnect, r, Open];
    assert evs[1..][1..] == [Disconnect, r, Open];
    assert CorrectedRun(s, evs) == CorrectedRun(u, [Disconnect, r, Open]);
    CorrectedQuietAfterDisconnect(u, [r, Open]);
    assert [Disconnect] + [r, Open] == [Disconnect, r, Open];
  }

  /**
   * `onopen` does not look at the intentional-disconnect flag: a session that opens after
   * `disconnect` shows `Connected` although the user ended it.
   */
  lemma OpenAfterDisconnect(s: LiveState)
    ensures Run(s, [Disconnect, Open]).state == Connected
    ensures Run(s, [Disconnect, Open]).intentionalDisconnect
  {
  }

  // ---------------------------------------------------------------------------------------
  // Messages
  // ---------------------------------------------------------------------------------------

  /**
   * An interruption stops every playback source, resets the output clock and marks the
   * response inactive, and changes nothing else.
   */
  lemma InterruptionRules(s: LiveState, audio: Option<Chunk>, turnComplete: bool)
    ensures Step(s, Message(true, audio, turnComplete)) ==
      s.(audioSources := {}, nextStartTime := 0.0, responseActive := false)
  {
  }

  /**
   * A completed turn while the response is active marks it inactive, unless its chunk
   * enters the audio branch and fails to decode.
   */
  lemma TurnCompleteRules(s: LiveState, audio: Option<Chunk>)
    requires s.responseActive
    ensures !Step(s, Message(false, audio, true)).responseActive <==>
      (audio.None? || audio.value.data == "" || !s.audioReady || DecodedFrames(audio.value.data).Some?)
  {
  }

  /**
   * A chunk with empty data skips the audio branch: the message only ends the turn, as if
   * it carried no chunk at all.
   */
  lemma EmptyChunkSkipped(s: LiveState, c: Chunk, turnComplete: bool)
    requires c.data == ""
    ensures Step(s, Message(false, Some(c), turnComplete)) == Step(s, Message(false, None, turnComplete))
    ensures Step(s, Message(false, Some(c), turnComplete)).audioSources == s.audioSources
    ensures !s.responseActive ==> Step(s, Message(false, Some(c), turnComplete)) == s
  {
  }

  /**
   * A decoded audio chunk with the output context present marks the response active and
   * adds its source; it is scheduled no earlier than the output clock, after a start tone
   * when the response was inactive, and the clock moves on by its length in seconds.
   */
  lemma AudioChunkRules(s: LiveState, c: Chunk, frames: nat)
    requires s.audioReady && DecodedFrames(c.data) == Some(frames)
    ensures var t := Step(s, Message(false, Some(c), false));
      var duration := frames as real / OUTPUT_RATE;
      t.responseActive && t.audioSources == s.audioSources + {c.source} &&
      t.nextStartTime >= c.currentTime + duration &&
      t.nextStartTime >= s.nextStartTime + duration &&
      (!s.responseActive ==> t.nextStartTime >= c.currentTime + TONE_SECONDS + duration)
  {
  }

  /**
   * A non-empty chunk that fails to decode still marks the response active and moves the clock past
   * the start tone, but adds no source, and a `turnComplete` on the same message is lost.
   */
  lemma UndecodableChunkRules(s: LiveState, c: Chunk)
    requires s.audioReady && c.data != "" && DecodedFrames(c.data).None?
    ensures var t := Step(s, Message(false, Some(c), false));
      t.responseActive && t.audioSources == s.audioSources &&
      t.nextStartTime >= c.currentTime && t.nextStartTime >= s.nextStartTime &&
      (!s.responseActive ==> t.nextStartTime >= c.currentTime + TONE_SECONDS) &&
      Step(s, Message(false, Some(c), true)) == t
  {
  }

  /**
   * The chunk the live API sends for `2n` PCM bytes, RFC 4648 encoded, decodes to `n`
   * frames; data `atob` rejects does not decode.
   */
  lemma DecodedFramesOfEncoding(b: seq<bv8>, data: string)
    requires |b| % 2 == 0 && |b| >= 2
    ensures DecodedFrames(Base64.Encode(b)) == Some(|b| / 2)
    ensures Base64.Atob(data).None? ==> DecodedFrames(data).None?
  {
    Base64.AtobInvertsBtoa(b);
  }

  /** `getStatusText`. */
  function StatusText(s: ConnectionState): string
  {
    if s == Connected then "Langsung dengan CASA"
    else if s == Connecting then "Menghubungkan ke CASA..."
    else if s == Reconnecting then "Mencoba menghubungkan kembali..."
    else if s == Error then "Kesalahan Koneksi"
    else "Terputus"
  }

  /** Each state has its own status text. */
  lemma StatusTextInjective(a: ConnectionState, b: ConnectionState)
    ensures StatusText(a) == StatusText(b) <==> a == b
  {
    if StatusText(a) == StatusText(b) {
      assert |StatusText(a)| == |StatusText(b)|;
      assert StatusText(a)[0] == StatusText(b)[0];
    }
  }

  /** The live session component with its state held in mutable fields. */
  class LiveSession {
    var connectionState: ConnectionState
    var errorMsg: Option<string>
    var retryCount: int
    var intentionalDisconnect: bool
    var responseActive: bool
    var timers: set<nat>            // reconnect timers scheduled and neither fired nor cancelled
    var timerRef: Option<nat>       // `reconnectTimeoutRef.current`
    var nextTimer: nat              // the id the next `setTimeout` returns
    var audioReady: bool            // the output audio context exists
    var audioSources: set<nat>
    var nextStartTime: real

    function Snapshot(): LiveState
      reads this
    {
      LiveState(connectionState, errorMsg, retryCount, intentionalDisconnect, responseActive,
        timers, timerRef, nextTimer, audioReady, audioSources, nextStartTime)
    }

    ghost predicate Valid()
      reads this
    {
      RetryBounded(Snapshot()) && TimersIssued(Snapshot())
    }

    constructor ()
      ensures Valid() && Snapshot() == Initial
    {
      connectionState := Disconnected;
      errorMsg := None;
      retryCount := 0;
      intentionalDisconnect := false;
      responseActive := false;
      timers := {};
      timerRef := None;
      nextTimer := 1;
      audioReady := false;
      audioSources := {};
      nextStartTime := 0.0;
    }

    /** `stopAllAudioPlayback`: stops every source and empties the set. */
    method StopAllAudioPlayback()
      modifies this`audioSources
      ensures audioSources == {}
    {
      audioSources := {};
    }

    /** `cleanupAudioResources`. */
    method CleanupAudioResources()
      modifies this
      ensures Snapshot() == Cleanup(old(Snapshot()))
    {
      StopAllAudioPlayback();
      audioReady := false;
    }

    /** `setTimeout(() => startSession(true), RETRY_DELAY_MS)`: schedules a new timer. */
    method SetRetryTimeout() returns (id: nat)
      modifies this`timers, this`nextTimer
      ensures id == old(nextTimer) && nextTimer == id + 1 && timers == old(timers) + {id}
    {
      id := nextTimer;
      nextTimer := nextTimer + 1;
      timers := timers + {id};
    }

    /** `handleConnectionLoss`. */
    method HandleConnectionLoss()
      requires Valid()
      modifies this
      ensures Valid() && Snapshot() == ConnectionLoss(old(Snapshot()))
    {
      if intentionalDisconnect {
        return;
      }
      CleanupAudioResources();
      if retryCount < MAX_RETRIES {
        var nextRetry := retryCount + 1;
        retryCount := nextRetry;
        connectionState := Reconnecting;
        var id := SetRetryTimeout();
        timerRef := Some(id);
      } else {
        connectionState := Error;
        errorMsg := Some(UNSTABLE_MESSAGE);
      }
    }

    /** `startSession(isRetry)`; `failure` is what getting the microphone raised. */
    method StartSession(isRetry: bool, failure: Option<string>)
      requires Valid()
      modifies this
      ensures Valid() && Snapshot() == Step(old(Snapshot()), Start(isRetry, failure))
    {
      errorMsg := None;
      if !isRetry {
        connectionState := Connecting;
        retryCount := 0;
      }
      intentionalDisconnect := false;
      audioReady := true;
      if failure.Some? {
        if IsMicrophoneError(failure.value) {
          connectionState := Error;
          errorMsg := Some(MIC_MESSAGE);
        } else {
          HandleConnectionLoss();
        }
      }
    }

    /** The callback of reconnect timer `timer`, which runs only while it is scheduled. */
    method RetryTimerFires(timer: nat, failure: Option<string>)
      requires Valid()
      modifies this
      ensures Valid() && Snapshot() == Step(old(Snapshot()), Event.RetryTimerFires(timer, failure))
    {
      if timer in timers {
        timers := timers - {timer};
        StartSession(true, failure);
      }
    }

    /** `onopen`. */
    method OnOpen()
      requires Valid()
      modifies this
      ensures Valid() && Snapshot() == Step(old(Snapshot()), Open)
    {
      connectionState := Connected;
      retryCount := 0;
    }

    /**
     * `onmessage`; `join` is the platform's Int16 byte order, which the decoded buffer's
     * length does not depend on.
     */
    method OnMessage(interrupted: bool, audio: Option<Chunk>, turnComplete: bool, join: (bv8, bv8) -> AudioUtils.Int16)
      requires Valid()
      modifies this
      ensures Valid() && Snapshot() == Step(old(Snapshot()), Message(interrupted, audio, turnComplete))
    {
      if interrupted {
        StopAllAudioPlayback();
        nextStartTime := 0.0;
        responseActive := false;
        return;
      }
      if audio.Some? && audio.value.data != "" && audioReady {
        var decoded := ReceiveChunk(audio.value, join);
        if !decoded {
          return;
        }
      }
      EndTurn(turnComplete);
    }

    /** The audio branch of `onmessage`; `decoded` is false where decoding throws. */
    method ReceiveChunk(c: Chunk, join: (bv8, bv8) -> AudioUtils.Int16) returns (decoded: bool)
      modifies this`responseActive, this`nextStartTime, this`audioSources
      ensures decoded <==> DecodedFrames(c.data).Some?
      ensures Snapshot() ==
        match DecodedFrames(c.data)
        case None => ChunkArrives(old(Snapshot()), c)
        case Some(frames) => ChunkPlays(ChunkArrives(old(Snapshot()), c), c, frames)
    {
      ArriveChunk(c);
      var frames := DecodeChunk(c.data, join);
      if frames.None? {
        return false;
      }
      audioSources := audioSources + {c.source};
      nextStartTime := nextStartTime + frames.value as real / OUTPUT_RATE;
      return true;
    }

    /** `onmessage` before the chunk is decoded. */
    method ArriveChunk(c: Chunk)
      modifies this`responseActive, this`nextStartTime
      ensures Snapshot() == ChunkArrives(old(Snapshot()), c)
    {
      nextStartTime := Max(nextStartTime, c.currentTime);
      if !responseActive {
        responseActive := true;
        nextStartTime := nextStartTime + TONE_SECONDS;
      }
    }

    /** The `turnComplete` branch of `onmessage`. */
    method EndTurn(turnComplete: bool)
      modifies this`responseActive, this`nextStartTime
      ensures Snapshot() == TurnEnd(old(Snapshot()), turnComplete)
    {
      if turnComplete && responseActive {
        if audioReady {
          nextStartTime := nextStartTime + TONE_SECONDS;
        }
        responseActive := false;
      }
    }

    /**
     * `decodeAudioData(base64Decode(data), ctx, 24000)` with one channel: the frame count of
     * the buffer it builds, or `None` where one of the two throws.
     */
    static method DecodeChunk(data: string, join: (bv8, bv8) -> AudioUtils.Int16) returns (frames: Option<nat>)
      ensures frames == DecodedFrames(data)
    {
      var bytes := AudioUtils.Base64Decode(data);
      if bytes.None? {
        return None;
      }
      var buffer := AudioUtils.DecodeAudioData(bytes.value, 1, join);
      if buffer.None? {
        return None;
      }
      frames := Some(buffer.value.Length1);
    }

    /** `onclose` and `onerror`. */
    method OnClosed()
      requires Valid()
      modifies this
      ensures Valid() && Snapshot() == Step(old(Snapshot()), Closed)
    {
      HandleConnectionLoss();
    }

    /** `disconnect`: `clearTimeout` reaches only the timer the ref holds. */
    method Disconnect()
      requires Valid()
      modifies this
      ensures Valid() && Snapshot() == Step(old(Snapshot()), Event.Disconnect)
    {
      intentionalDisconnect := true;
      if timerRef.Some? {
        timers := timers - {timerRef.value};
      }
      CleanupAudioResources();
      connectionState := Disconnected;
      responseActive := false;
    }

    /** A playback source's `ended` listener. */
    method SourceEnded(source: nat)
      modifies this`audioSources
      ensures Snapshot() == Step(old(Snapshot()), Event.SourceEnded(source))
    {
      audioSources := audioSources - {source};
    }

    /** `getStatusText`. */
    function GetStatusText(): string
      reads this
    {
      StatusText(connectionState)
    }
  }
}
