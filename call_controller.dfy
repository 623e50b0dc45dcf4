/**
 * The start/end variant of vapi_call_controller.py: `call-start` registers a
 * call in `active_calls` and schedules a two-phase end sequence, `call-end`
 * removes it, and each phase re-checks the registry before it plays the end
 * message or hangs up.
 *
 * Sleeping threads become entries of a multiset of pending sequences and each
 * wake-up is a step of its own; every step is atomic and appends the outbound
 * calls it makes to a trace. The pure step functions specify the class
 * Controller, which performs them in place.
 */
module CallController {
  import opened Wrappers

  type CallId = string

  const VAPI_API_BASE: string := "https://api.vapi.ai"
  const VAPI_API_KEY: string := "your_api_key_here"
  const CALL_DURATION_LIMIT: nat := 80
  const END_MESSAGE_DURATION: nat := 10
  const END_MESSAGE_TEXT: string := "Your call will end shortly."

  // ---------------------------------------------------------------------------
  // Outbound requests (`play_end_message`, `hangup_call`)
  // ---------------------------------------------------------------------------

  /** An outbound call to the platform's API. */
  datatype Action = Play(callId: CallId) | Hangup(callId: CallId)

  datatype TtsPayload = TtsPayload(kind: string, text: string)

  /** A POST: its URL, its JSON body (none for a hangup) and its Authorization header. */
  datatype HttpPost = HttpPost(url: string, payload: Option<TtsPayload>, authorization: string)

  const CALL_PREFIX: string := VAPI_API_BASE + "/call/"
  const PLAY_SUFFIX: string := "/play"
  const HANGUP_SUFFIX: string := "/hangup"

  function ActionUrl(a: Action): (url: string)
  {
    CALL_PREFIX + a.callId + (if a.Play? then PLAY_SUFFIX else HANGUP_SUFFIX)
  }

  /** Reads the action back from an endpoint URL of the API. */
  function ParseActionUrl(url: string): (parsed: Option<Action>)
  {
    if |url| < |CALL_PREFIX| || url[..|CALL_PREFIX|] != CALL_PREFIX then None
    else
      var rest := url[|CALL_PREFIX|..];
      if |rest| >= |PLAY_SUFFIX| && rest[|rest| - |PLAY_SUFFIX|..] == PLAY_SUFFIX then
        Some(Play(rest[..|rest| - |PLAY_SUFFIX|]))
      else if |rest| >= |HANGUP_SUFFIX| && rest[|rest| - |HANGUP_SUFFIX|..] == HANGUP_SUFFIX then
        Some(Hangup(rest[..|rest| - |HANGUP_SUFFIX|]))
      else None
  }

  /** The endpoint URL determines the action: kind and call id are recoverable from it. */
  lemma ParseActionUrlInverts(a: Action)
    ensures ParseActionUrl(ActionUrl(a)) == Some(a)
  {
    var url := ActionUrl(a);
    var suffix := if a.Play? then PLAY_SUFFIX else HANGUP_SUFFIX;
    assert url[..|CALL_PREFIX|] == CALL_PREFIX;
    var rest := url[|CALL_PREFIX|..];
    assert rest == a.callId + suffix;
    assert rest[|rest| - |suffix|..] == suffix;
    assert rest[..|rest| - |suffix|] == a.callId;
    if a.Hangup? {
      assert rest[|rest| - 1] == 'p' && rest[|rest| - |PLAY_SUFFIX|] != '/';
      assert rest[|rest| - |PLAY_SUFFIX|..] != PLAY_SUFFIX;
    }
  }

  /** The POST that carries an action. */
  function PostFor(a: Action): (r: HttpPost)
    ensures ParseActionUrl(r.url) == Some(a)
    ensures r.authorization == "Bearer " + VAPI_API_KEY
    ensures r.payload.Some? <==> a.Play?
    ensures a.Play? ==> r.payload == Some(TtsPayload("tts", END_MESSAGE_TEXT))
  {
    ParseActionUrlInverts(a);
    var auth := "Bearer " + VAPI_API_KEY;
    match a
    case Play(_) => HttpPost(ActionUrl(a), Some(TtsPayload("tts", END_MESSAGE_TEXT)), auth)
    case Hangup(_) => HttpPost(ActionUrl(a), None, auth)
  }

  // ---------------------------------------------------------------------------
  // The registry and the end sequences (`schedule_end_sequence`)
  // ---------------------------------------------------------------------------

  /** Where a sleeping end sequence will wake up: at the first or the second check. */
  datatype Phase = FirstCheck | SecondCheck

  datatype EndSequence = EndSequence(callId: CallId, phase: Phase)

  /** The sleep before each check. */
  function Delay(p: Phase): (d: nat)
  {
    match p
    case FirstCheck => CALL_DURATION_LIMIT - END_MESSAGE_DURATION
    case SecondCheck => END_MESSAGE_DURATION
  }

  /** The two sleeps of one sequence add up to the call duration limit, 70 s then 10 s. */
  lemma DelaysSumToLimit()
    ensures Delay(FirstCheck) == 70 && Delay(SecondCheck) == 10
    ensures Delay(FirstCheck) + Delay(SecondCheck) == CALL_DURATION_LIMIT
  {
  }

  /** `active_calls`, the sleeping sequences and every outbound action so far. */
  datatype State = State(activeCalls: map<CallId, bool>, pending: multiset<EndSequence>, trace: seq<Action>)

  const INIT: State := State(map[], multiset{}, [])

  datatype ReplyBody = MissingCallId | CallTimerStarted | CallEnded
  datatype Reply = Reply(code: int, body: ReplyBody)

  datatype StepResult = StepResult(reply: Reply, state: State)

  /** `call_start`: no deduplication, a second start schedules a second sequence. */
  function CallStartStep(st: State, callId: Option<string>): (r: StepResult)
    ensures !Truthy(callId) ==> r == StepResult(Reply(400, MissingCallId), st)
    ensures Truthy(callId) ==>
      && r.reply == Reply(200, CallTimerStarted)
      && r.state.activeCalls == st.activeCalls[callId.value := true]
      && r.state.pending[EndSequence(callId.value, FirstCheck)] == st.pending[EndSequence(callId.value, FirstCheck)] + 1
      && r.state.pending - multiset{EndSequence(callId.value, FirstCheck)} == st.pending
      && r.state.trace == st.trace
  {
    if !Truthy(callId) then StepResult(Reply(400, MissingCallId), st)
    else
      var id := callId.value;
      StepResult(Reply(200, CallTimerStarted),
                 State(st.activeCalls[id := true], st.pending + multiset{EndSequence(id, FirstCheck)}, st.trace))
  }

  /** `call_end`: always 200; removes the call if it is registered. */
  function CallEndStep(st: State, callId: Option<string>): (r: StepResult)
    ensures r.reply == Reply(200, CallEnded)
    ensures r.state.pending == st.pending && r.state.trace == st.trace
    ensures callId.Some? ==> r.state.activeCalls.Keys == st.activeCalls.Keys - {callId.value}
    ensures callId.None? || callId.value !in st.activeCalls ==> r.state == st
    ensures forall id :: id in r.state.activeCalls ==> id in st.activeCalls && r.state.activeCalls[id] == st.activeCalls[id]
  {
    if callId.Some? && callId.value in st.activeCalls then
      StepResult(Reply(200, CallEnded), State(st.activeCalls - {callId.value}, st.pending, st.trace))
    else
      StepResult(Reply(200, CallEnded), st)
  }

  /** Ending a call twice is the same as ending it once. */
  lemma CallEndIdempotent(st: State, callId: Option<string>)
    ensures CallEndStep(CallEndStep(st, callId).state, callId) == CallEndStep(st, callId)
  {
  }

  /**
   * The first wake-up of a sequence for `id`: if the call is still registered
   * it plays the end message and goes back to sleep for the second check;
   * otherwise it ends silently. Nothing happens if no such sequence sleeps.
   */
  function Phase1Step(st: State, id: CallId): (r: State)
    ensures EndSequence(id, FirstCheck) !in st.pending ==> r == st
    ensures r.activeCalls == st.activeCalls
    ensures EndSequence(id, FirstCheck) in st.pending && id !in st.activeCalls ==>
      r.trace == st.trace && r.pending == st.pending - multiset{EndSequence(id, FirstCheck)}
    ensures EndSequence(id, FirstCheck) in st.pending && id in st.activeCalls ==>
      && r.trace == st.trace + [Play(id)]
      && r.pending == st.pending - multiset{EndSequence(id, FirstCheck)} + multiset{EndSequence(id, SecondCheck)}
  {
    var s := EndSequence(id, FirstCheck);
    if s !in st.pending then st
    else if id in st.activeCalls then
      State(st.activeCalls, st.pending - multiset{s} + multiset{EndSequence(id, SecondCheck)}, st.trace + [Play(id)])
    else
      State(st.activeCalls, st.pending - multiset{s}, st.trace)
  }

  /**
   * The second wake-up: if the call is still registered it hangs up and
   * removes the call; otherwise it ends silently and touches nothing.
   */
  function Phase2Step(st: State, id: CallId): (r: State)
    ensures EndSequence(id, SecondCheck) !in st.pending ==> r == st
    ensures EndSequence(id, SecondCheck) in st.pending ==>
      r.pending == st.pending - multiset{EndSequence(id, SecondCheck)}
    ensures EndSequence(id, SecondCheck) in st.pending && id !in st.activeCalls ==>
      r.trace == st.trace && r.activeCalls == st.activeCalls
    ensures EndSequence(id, SecondCheck) in st.pending && id in st.activeCalls ==>
      && r.trace == st.trace + [Hangup(id)]
      && r.activeCalls.Keys == st.activeCalls.Keys - {id}
      && forall k :: k in r.activeCalls ==> r.activeCalls[k] == st.activeCalls[k]
  {
    var s := EndSequence(id, SecondCheck);
    if s !in st.pending then st
    else if id in st.activeCalls then
      State(st.activeCalls - {id}, st.pending - multiset{s}, st.trace + [Hangup(id)])
    else
      State(st.activeCalls, st.pending - multiset{s}, st.trace)
  }

  /** If the call is gone when the first sleep ends, the sequence does nothing at all. */
  lemma AbsentAtFirstCheck(st: State, id: CallId)
    requires EndSequence(id, FirstCheck) in st.pending && id !in st.activeCalls
    ensures var r := Phase1Step(st, id);
      r.trace == st.trace && r.activeCalls == st.activeCalls
      && r.pending[EndSequence(id, SecondCheck)] == st.pending[EndSequence(id, SecondCheck)]
  {
  }

  /** A `call-end` between the checks: the end message plays, the hangup does not, nothing is popped. */
  lemma EndedBetweenChecks(st: State, id: CallId)
    requires EndSequence(id, FirstCheck) in st.pending && id in st.activeCalls
    ensures var r := Phase2Step(CallEndStep(Phase1Step(st, id), Some(id)).state, id);
      r.trace == st.trace + [Play(id)] && r.activeCalls.Keys == st.activeCalls.Keys - {id}
  {
  }

  /** Registered at both checks: exactly play then hang up, and the call is removed. */
  lemma PresentAtBothChecks(st: State, id: CallId)
    requires EndSequence(id, FirstCheck) in st.pending && id in st.activeCalls
    ensures var r := Phase2Step(Phase1Step(st, id), id);
      r.trace == st.trace + [Play(id), Hangup(id)] && id !in r.activeCalls
      && r.pending == st.pending - multiset{EndSequence(id, FirstCheck)}
  {
    var mid := Phase1Step(st, id);
    assert EndSequence(id, SecondCheck) in mid.pending;
  }

  // ---------------------------------------------------------------------------
  // Runs of events
  // ---------------------------------------------------------------------------

  /** Anything that can happen next: a webhook arrives or a sleeping sequence wakes up. */
  datatype Event =
    | Start(startId: Option<string>)
    | End(endId: Option<string>)
    | FirePhase1(firstId: CallId)
    | FirePhase2(secondId: CallId)

  function Step(st: State, e: Event): (r: State)
  {
    match e
    case Start(c) => CallStartStep(st, c).state
    case End(c) => CallEndStep(st, c).state
    case FirePhase1(id) => Phase1Step(st, id)
    case FirePhase2(id) => Phase2Step(st, id)
  }

  /** One step appends at most one action to the trace and never rewrites it. */
  lemma StepAppendsAtMostOne(st: State, e: Event)
    ensures var r := Step(st, e);
      |st.trace| <= |r.trace| <= |st.trace| + 1 && r.trace[..|st.trace|] == st.trace
  {
  }

  /** The state after a sequence of events, the last event applied last. */
  function Run(st: State, es: seq<Event>): (r: State)
    decreases |es|
  {
    if es == [] then st else Step(Run(st, es[..|es| - 1]), es[|es| - 1])
  }

  /** The action trace is append-only over any run. */
  lemma {:induction false} RunAppendsOnly(st: State, es: seq<Event>)
    ensures |st.trace| <= |Run(st, es).trace| && Run(st, es).trace[..|st.trace|] == st.trace
    decreases |es|
  {
    if es != [] {
      var prev := Run(st, es[..|es| - 1]);
      RunAppendsOnly(st, es[..|es| - 1]);
      StepAppendsAtMostOne(prev, es[|es| - 1]);
      assert Run(st, es).trace[..|prev.trace|] == prev.trace;
      assert Run(st, es).trace[..|st.trace|] == Run(st, es).trace[..|prev.trace|][..|st.trace|];
    }
  }

  /** Does a step re-register `id`? */
  predicate Restarts(e: Event, id: CallId)
  {
    e.Start? && e.startId == Some(id)
  }

  /**
   * Cancellation: once a call is absent from the registry, no sleeping
   * sequence can play to it or hang it up until it is started again.
   */
  lemma {:induction false} CancelSuppressesActions(st: State, id: CallId, es: seq<Event>)
    requires id !in st.activeCalls
    requires forall i :: 0 <= i < |es| ==> !Restarts(es[i], id)
    ensures var r := Run(st, es);
      id !in r.activeCalls
      && forall i :: |st.trace| <= i < |r.trace| ==> r.trace[i].callId != id
    decreases |es|
  {
    if es != [] {
      var prefix := es[..|es| - 1];
      CancelSuppressesActions(st, id, prefix);
      var prev := Run(st, prefix);
      var r := Step(prev, es[|es| - 1]);
      assert Run(st, es) == r;
      assert !Restarts(es[|es| - 1], id);
      assert id !in r.activeCalls;
      StepAppendsAtMostOne(prev, es[|es| - 1]);
      assert |r.trace| == |prev.trace| + 1 ==> r.trace[|prev.trace|].callId != id by {
        match es[|es| - 1]
        case Start(c) =>
        case End(c) =>
        case FirePhase1(x) =>
        case FirePhase2(x) =>
      }
      forall i | |st.trace| <= i < |r.trace|
        ensures r.trace[i].callId != id
      {
        if i < |prev.trace| {
          assert r.trace[i] == r.trace[..|prev.trace|][i] == prev.trace[i];
        }
      }
    }
  }

  /**
   * A `call-end` suppresses both the end message and the hangup of every
   * sequence for that call: after it, whatever else happens short of a new
   * `call-start` for the id, the trace only grows and gains no action for it.
   */
  lemma {:induction false} CallEndBeforeCheckCancels(st: State, id: CallId, es: seq<Event>)
    requires forall i :: 0 <= i < |es| ==> !Restarts(es[i], id)
    ensures var r := Run(CallEndStep(st, Some(id)).state, es);
      && |st.trace| <= |r.trace| && r.trace[..|st.trace|] == st.trace
      && forall i :: |st.trace| <= i < |r.trace| ==> r.trace[i].callId != id
  {
    var ended := CallEndStep(st, Some(id)).state;
    CancelSuppressesActions(ended, id, es);
    RunAppendsOnly(ended, es);
  }

  /**
   * Cancellation lasts only until the call is started again: with no
   * deduplication, a sequence scheduled before a `call-end` wakes up after a
   * new `call-start` for the same id, plays and hangs up.
   */
  lemma RestartRevivesEarlierSequence(st: State, id: CallId)
    requires EndSequence(id, FirstCheck) in st.pending && id != ""
    ensures var ended := CallEndStep(st, Some(id)).state;
      var restarted := CallStartStep(ended, Some(id)).state;
      var r := Phase2Step(Phase1Step(restarted, id), id);
      r.trace == st.trace + [Play(id), Hangup(id)] && id !in r.activeCalls
  {
    var restarted := CallStartStep(CallEndStep(st, Some(id)).state, Some(id)).state;
    assert id in restarted.activeCalls && EndSequence(id, FirstCheck) in restarted.pending;
    assert EndSequence(id, SecondCheck) in Phase1Step(restarted, id).pending;
  }

  // ---------------------------------------------------------------------------
  // Ordering: a hangup never comes before its end message
  // ---------------------------------------------------------------------------

  function Plays(trace: seq<Action>, id: CallId): (n: nat)
  {
    multiset(trace)[Play(id)]
  }

  function Hangups(trace: seq<Action>, id: CallId): (n: nat)
  {
    multiset(trace)[Hangup(id)]
  }

  function AwaitingHangup(st: State, id: CallId): (n: nat)
  {
    st.pending[EndSequence(id, SecondCheck)]
  }

  /**
   * Every hangup, and every sequence still sleeping before its hangup, is
   * matched by an end message already played to the same call.
   */
  ghost predicate Ordered(st: State)
  {
    forall id :: Hangups(st.trace, id) + AwaitingHangup(st, id) <= Plays(st.trace, id)
  }

  /** Playing the end message to `x` adds one play and one sequence awaiting hangup for `x` only. */
  lemma {:induction false} Phase1KeepsOrdered(st: State, x: CallId)
    requires Ordered(st)
    ensures Ordered(Phase1Step(st, x))
  {
    var r := Phase1Step(st, x);
    if EndSequence(x, FirstCheck) in st.pending && x in st.activeCalls {
      assert multiset(r.trace) == multiset(st.trace) + multiset{Play(x)};
      forall id
        ensures Hangups(r.trace, id) + AwaitingHangup(r, id) <= Plays(r.trace, id)
      {
        assert Hangups(st.trace, id) + AwaitingHangup(st, id) <= Plays(st.trace, id);
        assert Hangups(r.trace, id) == Hangups(st.trace, id);
        if id == x {
          assert Plays(r.trace, id) == Plays(st.trace, id) + 1;
          assert AwaitingHangup(r, id) == AwaitingHangup(st, id) + 1;
        } else {
          assert Plays(r.trace, id) == Plays(st.trace, id);
          assert AwaitingHangup(r, id) == AwaitingHangup(st, id);
        }
      }
    } else {
      forall id
        ensures Hangups(r.trace, id) + AwaitingHangup(r, id) <= Plays(r.trace, id)
      {
        assert Hangups(st.trace, id) + AwaitingHangup(st, id) <= Plays(st.trace, id);
        assert AwaitingHangup(r, id) == AwaitingHangup(st, id);
      }
    }
  }

  /** A second check consumes one sequence awaiting hangup for `x` and adds at most one hangup. */
  lemma {:induction false} Phase2KeepsOrdered(st: State, x: CallId)
    requires Ordered(st)
    ensures Ordered(Phase2Step(st, x))
  {
    var r := Phase2Step(st, x);
    if EndSequence(x, SecondCheck) in st.pending {
      assert multiset(r.trace) == multiset(st.trace) + (if x in st.activeCalls then multiset{Hangup(x)} else multiset{});
      forall id
        ensures Hangups(r.trace, id) + AwaitingHangup(r, id) <= Plays(r.trace, id)
      {
        assert Hangups(st.trace, id) + AwaitingHangup(st, id) <= Plays(st.trace, id);
        assert Plays(r.trace, id) == Plays(st.trace, id);
        if id == x {
          assert Hangups(r.trace, id) <= Hangups(st.trace, id) + 1;
          assert AwaitingHangup(r, id) + 1 == AwaitingHangup(st, id);
        } else {
          assert Hangups(r.trace, id) == Hangups(st.trace, id);
          assert AwaitingHangup(r, id) == AwaitingHangup(st, id);
        }
      }
    }
  }

  /** Every step keeps the ordering invariant. */
  lemma {:induction false} StepPreservesOrdered(st: State, e: Event)
    requires Ordered(st)
    ensures Ordered(Step(st, e))
  {
    match e
    case Start(c) =>
      var r := Step(st, e);
      forall id
        ensures Hangups(r.trace, id) + AwaitingHangup(r, id) <= Plays(r.trace, id)
      {
        assert Hangups(st.trace, id) + AwaitingHangup(st, id) <= Plays(st.trace, id);
        assert AwaitingHangup(r, id) == AwaitingHangup(st, id);
      }
    case End(c) =>
      assert Step(st, e).trace == st.trace && Step(st, e).pending == st.pending;
    case FirePhase1(x) => Phase1KeepsOrdered(st, x);
    case FirePhase2(x) => Phase2KeepsOrdered(st, x);
  }

  lemma {:induction false} RunPreservesOrdered(st: State, es: seq<Event>)
    requires Ordered(st)
    ensures Ordered(Run(st, es))
    decreases |es|
  {
    if es != [] {
      RunPreservesOrdered(st, es[..|es| - 1]);
      StepPreservesOrdered(Run(st, es[..|es| - 1]), es[|es| - 1]);
    }
  }

  /**
   * From the initial state, every prefix of the action trace holds at least
   * as many end messages as hangups for each call: a hangup is always
   * preceded by its end message.
   */
  lemma {:induction false} HangupFollowsPlay(es: seq<Event>, k: nat, id: CallId)
    requires k <= |Run(INIT, es).trace|
    ensures Hangups(Run(INIT, es).trace[..k], id) <= Plays(Run(INIT, es).trace[..k], id)
    decreases |es|
  {
    var t := Run(INIT, es).trace;
    if es == [] {
      assert t[..k] == [];
    } else {
      var prev := Run(INIT, es[..|es| - 1]);
      StepAppendsAtMostOne(prev, es[|es| - 1]);
      if k <= |prev.trace| {
        assert t[..k] == prev.trace[..k];
        HangupFollowsPlay(es[..|es| - 1], k, id);
      } else {
        assert t[..k] == t;
        RunPreservesOrdered(INIT, es);
        assert Hangups(t, id) + AwaitingHangup(Run(INIT, es), id) <= Plays(t, id);
      }
    }
  }

  // ---------------------------------------------------------------------------
  // The module-level state of vapi_call_controller.py
  // ---------------------------------------------------------------------------

  class Controller {
    var activeCalls: map<CallId, bool>
    var pending: multiset<EndSequence>
    var trace: seq<Action>

    ghost function Current(): State
      reads this
    {
      State(activeCalls, pending, trace)
    }

    /** Every registered call maps to True, and hangups follow their end messages. */
    ghost predicate Valid()
      reads this
    {
      (forall id :: id in activeCalls ==> activeCalls[id]) && Ordered(Current())
    }

    constructor ()
      ensures Valid() && Current() == INIT
    {
      activeCalls := map[];
      pending := multiset{};
      trace := [];
    }

    /** `call_start`. */
    method CallStart(callId: Option<string>) returns (reply: Reply)
      requires Valid()
      modifies this
      ensures Valid()
      ensures StepResult(reply, Current()) == CallStartStep(old(Current()), callId)
    {
      if !Truthy(callId) {
        return Reply(400, MissingCallId);
      }
      activeCalls := activeCalls[callId.value := true];
      pending := pending + multiset{EndSequence(callId.value, FirstCheck)};
      reply := Reply(200, CallTimerStarted);
      StepPreservesOrdered(old(Current()), Start(callId));
    }

    /** `call_end`. */
    method CallEnd(callId: Option<string>) returns (reply: Reply)
      requires Valid()
      modifies this
      ensures Valid()
      ensures StepResult(reply, Current()) == CallEndStep(old(Current()), callId)
    {
      if callId.Some? && callId.value in activeCalls {
        activeCalls := activeCalls - {callId.value};
      }
      reply := Reply(200, CallEnded);
      StepPreservesOrdered(old(Current()), End(callId));
    }

    /** `schedule_end_sequence` waking from its first sleep. */
    method Phase1Fires(id: CallId)
      requires Valid() && EndSequence(id, FirstCheck) in pending
      modifies this
      ensures Valid()
      ensures Current() == Phase1Step(old(Current()), id)
    {
      pending := pending - multiset{EndSequence(id, FirstCheck)};
      if id in activeCalls {
        trace := trace + [Play(id)];
        pending := pending + multiset{EndSequence(id, SecondCheck)};
      }
      StepPreservesOrdered(old(Current()), FirePhase1(id));
    }

    /** `schedule_end_sequence` waking from its second sleep. */
    method Phase2Fires(id: CallId)
      requires Valid() && EndSequence(id, SecondCheck) in pending
      modifies this
      ensures Valid()
      ensures Current() == Phase2Step(old(Current()), id)
    {
      pending := pending - multiset{EndSequence(id, SecondCheck)};
      if id in activeCalls {
        trace := trace + [Hangup(id)];
        activeCalls := activeCalls - {id};
      }
      StepPreservesOrdered(old(Current()), FirePhase2(id));
    }
  }
}
