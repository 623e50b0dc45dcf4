# Vapi call-timer webhooks, modelled in Dafny

Two small Flask services relay call-lifecycle events from the Vapi voice-agent
platform and, after a fixed delay, tell the platform to close the call. This
project models the part of each one that makes decisions: the in-memory call
registry and the rules that read and update it.

- `webhook.dfy`, module `VapiWebhook`, models `app.py`. A POST to `/server` is
  authenticated against a shared secret and fails closed. An authenticated
  `status-update` event whose status is `in-progress` registers the call id in
  `call_timers`. The first time an id is seen and the event has a control URL,
  a closing timer is started. When that timer fires it POSTs a single "say"
  message with `endCallAfterSpoken = true` to the captured URL. The pure
  function `HandleEvent` specifies one request. The class `Server` holds the
  registry, the pending timers and the messages sent, and updates them in
  place. Lemmas over runs of requests prove that at most one timer is ever
  started per call.
- `call_controller.dfy`, module `CallController`, models
  `vapi_call_controller.py`. `call-start` sets `active_calls[id] = True` and
  schedules a two-phase end sequence; it does not deduplicate. `call-end`
  removes the id. The first phase of a sequence sleeps 70 s, re-checks the
  registry and plays the end message. The second phase sleeps 10 s, re-checks
  and hangs up, then pops the id. Sleeping threads become a multiset of
  pending sequences, and each wake-up is its own atomic step. Every outbound
  call is appended to an action trace. The step functions specify the class
  `Controller`. Lemmas prove two things: a `call-end` suppresses every later
  action for that call until the call is started again, and every prefix of
  the trace holds at least as many end messages as hangups for each call.
  Because `call-start` does not deduplicate, a sequence scheduled before the
  `call-end` still plays and hangs up once the same id is started again.
- `wrappers.dfy`, module `Wrappers`: `Option`, for fields and headers that may
  be missing, and Python truthiness of an optional string.

Two behaviours of `app.py` that the model keeps as written:

- No code in `app.py` removes a key from `call_timers`, so a registered call
  stays registered for the life of the process (`Run`,
  `Server.EndCallAfterTimeout`).
- app.py:73 inserts the id before app.py:74-76 looks up the control URL, so an
  event without one still registers the call, and no later event can start a
  timer for it (`NoControlUrlBlocksLaterTimers`).

## Model

| member | source | states |
|---|---|---|
| VapiWebhook.VerifySignature | app.py:23-33 | an unset or empty secret rejects every header; a missing header is rejected; acceptance means the header equals the non-empty secret, and a header equal to a set secret is accepted |
| VapiWebhook.HandleEvent | app.py:53-91 | a request that fails verification gets 401 "Invalid signature", leaves the registry unchanged and starts nothing; every authenticated request gets 200 "ok"; the registry gains exactly the id of an authenticated in-progress event with a truthy id, stamped with the arrival time, whether or not a control URL is present; existing entries never change; a timer starts iff the id was new and a control URL is present, and it captures that id and URL |
| VapiWebhook.Run | app.py:71-87 | over any sequence of requests the set of registered call ids only grows |
| VapiWebhook.AtMostOneTimerPerCall | app.py:71-87 | over any sequence of requests the started timers belong to pairwise distinct calls, none registered before the run and all registered after it |
| VapiWebhook.UnsetSecretProcessesNothing | app.py:25-27 | with the secret unset or empty, a whole run leaves the registry unchanged and starts no timer |
| VapiWebhook.NoControlUrlBlocksLaterTimers | app.py:72-85 | an in-progress event for a new call without a control URL registers the call, so no later event in the run starts a timer for it |
| VapiWebhook.RepeatedInProgressIsNoOp | app.py:72-87 | a second in-progress event for an already registered call is answered 200 and changes nothing and starts nothing |
| VapiWebhook.Server.constructor | app.py:11-14 | a fresh server has the configured secret, an empty registry, no pending timer and no message sent |
| VapiWebhook.Server.HandleCallEvents | app.py:53-91 | the reply, the new registry and the newly pending timer are those of HandleEvent; nothing is sent; the invariant holds: started timers are for distinct registered calls, each started timer is pending or fired, each fired timer sent exactly its one message |
| VapiWebhook.Server.EndCallAfterTimeout | app.py:35-51 | a firing timer appends exactly one message: type "say", the fixed closing text, endCallAfterSpoken true, to the URL it captured; it leaves pending and the registry otherwise unchanged |
| CallController.ParseActionUrlInverts | vapi_call_controller.py:24-38 | the call id and the action kind can be read back from the play and hangup endpoint URLs, so distinct actions go to distinct URLs |
| CallController.PostFor | vapi_call_controller.py:22-44 | the play POST goes to the base + "/call/" + id + "/play" endpoint with a "tts" payload of the fixed text; the hangup POST goes to the "/hangup" endpoint with no body; both carry "Bearer " + key authorization |
| CallController.DelaysSumToLimit | vapi_call_controller.py:48-57 | the first sleep is 70 s, the second 10 s, and together they make up CALL_DURATION_LIMIT |
| CallController.CallStartStep | vapi_call_controller.py:64-78 | a missing or empty call id gets 400 and changes nothing; otherwise the reply is 200, the id maps to True and exactly one more first-phase sequence for it is pending, even if it was already active; the trace is unchanged |
| CallController.CallEndStep | vapi_call_controller.py:80-87 | always 200; the id is removed when present and the state is unchanged otherwise; the pending sequences and the trace are untouched |
| CallController.CallEndIdempotent | vapi_call_controller.py:84-87 | ending a call twice has the same effect and reply as ending it once |
| CallController.Phase1Step | vapi_call_controller.py:48-54 | a waking first-phase sequence whose call is gone ends with no action; if the call is registered it appends Play(id) and becomes a second-phase sequence; the registry is never changed |
| CallController.Phase2Step | vapi_call_controller.py:56-62 | a waking second-phase sequence whose call is gone ends with no action and no change to the registry; if the call is registered it appends Hangup(id) and removes the id, and every other call keeps its entry |
| CallController.AbsentAtFirstCheck | vapi_call_controller.py:50-53 | an id absent at the first check yields neither play nor hangup and leaves the registry unchanged |
| CallController.EndedBetweenChecks | vapi_call_controller.py:53-61 | present at the first check, ended before the second: play is issued, hangup is not |
| CallController.PresentAtBothChecks | vapi_call_controller.py:53-62 | present at both checks: exactly Play(id) then Hangup(id), and the id is removed afterwards |
| CallController.StepAppendsAtMostOne | vapi_call_controller.py:48-87 | each handler or phase appends at most one action and never rewrites the trace |
| CallController.RunAppendsOnly | vapi_call_controller.py:48-87 | over any sequence of events the action trace is append-only |
| CallController.CancelSuppressesActions | vapi_call_controller.py:53-62 | once a call is absent, no sequence plays to it or hangs it up until a call-start for it re-registers it |
| CallController.CallEndBeforeCheckCancels | vapi_call_controller.py:53-87 | after a call-end, any events without a new call-start for that id keep the earlier trace and add no play and no hangup for it |
| CallController.RestartRevivesEarlierSequence | vapi_call_controller.py:53-78 | a sequence scheduled before a call-end still plays then hangs up, and removes the id, once the same id is started again |
| CallController.Phase1KeepsOrdered | vapi_call_controller.py:53-54 | playing the end message adds one play and one sequence awaiting hangup for that call, so the ordering invariant is kept |
| CallController.Phase2KeepsOrdered | vapi_call_controller.py:60-62 | the second check consumes one sequence awaiting hangup and adds at most one hangup, so the ordering invariant is kept |
| CallController.StepPreservesOrdered | vapi_call_controller.py:53-62 | every step keeps, for each call, hangups plus sequences awaiting hangup at most the number of end messages played |
| CallController.RunPreservesOrdered | vapi_call_controller.py:48-87 | that ordering invariant holds after any sequence of events |
| CallController.HangupFollowsPlay | vapi_call_controller.py:54-61 | from the initial state, every prefix of the trace has at least as many Play(id) as Hangup(id) for every call |
| CallController.Controller.constructor | vapi_call_controller.py:20 | the registry starts empty, with nothing pending and no action |
| CallController.Controller.CallStart | vapi_call_controller.py:64-78 | performs CallStartStep in place and keeps the registry invariant (all values True, ordering) |
| CallController.Controller.CallEnd | vapi_call_controller.py:80-87 | performs CallEndStep in place and keeps the invariant |
| CallController.Controller.Phase1Fires | vapi_call_controller.py:48-54 | performs Phase1Step in place for a pending first-phase sequence and keeps the invariant |
| CallController.Controller.Phase2Fires | vapi_call_controller.py:56-62 | performs Phase2Step in place for a pending second-phase sequence and keeps the invariant |

## Left out

- Flask routing, JSON parsing and `jsonify`. A request is the datatype of the fields the handlers read, and a reply is a status code with a body tag.
- Malformed JSON shapes. In both files, a body that is not JSON or not a JSON object makes the handler raise, and Flask answers with an error instead of the modelled reply. The same happens in `app.py` when `message` or `call` is present but is not an object. None of these failures is modelled.
- VapiWebhook.HandleEvent: a `call.monitor` that is present but not an object (`null`, a string) is not modelled. In that case app.py:74 raises after app.py:73 has registered the id, so the source answers 500 and keeps the registration. The model always answers 200 to an authenticated request.
- Call ids are modelled as strings. A JSON number or other non-string `id` / `call_id` is not modelled.
- Threads, `daemon` and `time.sleep`. A sleeping thread is a pending entry, and its wake-up is a separate atomic step. Interleavings inside a handler or a phase are not modelled, so the unsynchronised check-then-act race on the shared dictionaries is not captured.
- `requests.post` and its response handling. Each outbound POST is an appended record. In `app.py` an exception from the POST is caught in `end_call_after_timeout` (app.py:46-51), so success and failure affect only logging there. A non-2xx response in `vapi_call_controller.py` also affects only logging.
- Phase1Step: every POST is assumed to return. Nothing in vapi_call_controller.py catches an exception from `requests.post`. If the play request at line 30 raises, the thread ends before the second check, but the model always schedules the second check.
- Phase2Step: every POST is assumed to return. If the hangup request at line 40 raises, the thread skips `active_calls.pop` at line 62, so the id stays registered until a `call-end`. The model always removes the id after a hangup.
- `time.time()`: the arrival time is a parameter of `HandleEvent`. The stored value is never read by the source.
- Reading `WEBHOOK_SECRET` from the environment. It is a constructor parameter of `Server`.
- `print` logging, ports, `app.run`, and the liveness routes `home` in both files.
- In `vapi_call_controller.py` the `@app.route('/')` decorator at line 6 uses `app` before line 10 defines it, so the module as written would fail at import. This model treats the handlers as if the module loaded.
- The sleeps themselves (`time.sleep(35)` in `app.py`, 70 s and 10 s in `vapi_call_controller.py`). No clock is modelled, so any pending timer or sequence may fire next. The two controller delays are stated by `Delay` and `DelaysSumToLimit` only.
- A wake-up event for a sequence that is not pending changes nothing in the step functions, so that runs of arbitrary events are total. The class methods instead require a pending sequence, since no thread exists otherwise.
