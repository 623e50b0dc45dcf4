/**
 * The authenticated `/server` webhook of app.py: a shared-secret check, the
 * `status-update`/`in-progress` decision that registers a call in `call_timers`
 * and starts at most one closing timer per call, and the single "say" action a
 * timer issues when it fires.
 *
 * The handler is specified by the pure function HandleEvent; the class Server
 * holds the global registry and performs the same step in place.
 */
module VapiWebhook {
  import opened Wrappers

  type CallId = string
  type Url = string
  /** The `time.time()` value stored per call; it is written, never read. */
  type Timestamp = real

  const FINAL_MESSAGE_TEXT: string :=
    "Thank you for trying our demo agent. Your session has now ended. When you're ready, please use the booking section here on this page to schedule a consultation with one of our experts. We look forward to assisting you soon. Have a great day!"

  /** The parts of an inbound POST the handler reads, after JSON parsing. */
  datatype Request = Request(
    secretHeader: Option<string>,   // header X-Vapi-Secret
    messageType: Option<string>,    // message.type
    status: Option<string>,         // message.status
    callId: Option<string>,         // message.call.id
    controlUrl: Option<Url>)        // message.call.monitor.controlUrl

  datatype Body = StatusOk | InvalidSignature
  datatype Response = Response(code: int, body: Body)

  const OK: Response := Response(200, StatusOk)
  const UNAUTHORIZED: Response := Response(401, InvalidSignature)

  /** A started timer thread: the call and the control URL captured at registration. */
  datatype Timer = Timer(callId: CallId, controlUrl: Url)

  /** The JSON POSTed to a control URL: `{"type", "content", "endCallAfterSpoken"}`. */
  datatype SayAction = SayAction(url: Url, kind: string, content: string, endCallAfterSpoken: bool)

  /** What one request does: the reply, the new registry and the timer it started, if any. */
  datatype Outcome = Outcome(response: Response, callTimers: map<CallId, Timestamp>, started: Option<Timer>)

  /**
   * Fail-closed authentication: an unset or empty configured secret rejects
   * every request; otherwise the header must equal the secret exactly.
   */
  function VerifySignature(secret: Option<string>, header: Option<string>): (ok: bool)
    ensures !Truthy(secret) ==> !ok
    ensures header.None? ==> !ok
    ensures ok ==> header == secret && header.value != ""
    ensures Truthy(secret) && header == secret ==> ok
  {
    if !Truthy(secret) then false
    else if header != secret then false
    else true
  }

  /** A `status-update` whose status is `in-progress` and whose call id is truthy. */
  predicate IsInProgress(req: Request)
  {
    req.messageType == Some("status-update") && req.status == Some("in-progress") && Truthy(req.callId)
  }

  /** The closing message a fired timer sends to its control URL. */
  function FinalMessage(t: Timer): (a: SayAction)
  {
    SayAction(t.controlUrl, "say", FINAL_MESSAGE_TEXT, true)
  }

  /** One POST to `/server`, given the registry before it and the time it arrives. */
  function HandleEvent(secret: Option<string>, callTimers: map<CallId, Timestamp>, now: Timestamp, req: Request): (o: Outcome)
    // rejected requests are not processed at all
    ensures !VerifySignature(secret, req.secretHeader) ==> o == Outcome(UNAUTHORIZED, callTimers, None)
    // every authenticated request is acknowledged, whatever its content
    ensures VerifySignature(secret, req.secretHeader) ==> o.response == OK
    // the registry only gains the call id of an authenticated in-progress event,
    // whether or not the event carries a control URL
    ensures o.callTimers.Keys ==
      if VerifySignature(secret, req.secretHeader) && IsInProgress(req)
      then callTimers.Keys + {req.callId.value}
      else callTimers.Keys
    ensures forall id :: id in callTimers ==> id in o.callTimers && o.callTimers[id] == callTimers[id]
    ensures VerifySignature(secret, req.secretHeader) && IsInProgress(req) && req.callId.value !in callTimers ==>
      o.callTimers[req.callId.value] == now
    // a timer starts exactly for a new call id that comes with a control URL
    ensures o.started.Some? <==>
      VerifySignature(secret, req.secretHeader) && IsInProgress(req)
      && req.callId.value !in callTimers && Truthy(req.controlUrl)
    ensures o.started.Some? ==> o.started.value == Timer(req.callId.value, req.controlUrl.value)
  {
    if !VerifySignature(secret, req.secretHeader) then
      Outcome(UNAUTHORIZED, callTimers, None)
    else if IsInProgress(req) && req.callId.value !in callTimers then
      var id := req.callId.value;
      var registered := callTimers[id := now];
      if Truthy(req.controlUrl) then
        Outcome(OK, registered, Some(Timer(id, req.controlUrl.value)))
      else
        Outcome(OK, registered, None)
    else
      Outcome(OK, callTimers, None)
  }

  /** A request together with the time it arrives. */
  datatype Delivery = Delivery(at: Timestamp, request: Request)

  datatype RunResult = RunResult(callTimers: map<CallId, Timestamp>, started: seq<Timer>)

  /** Handles a sequence of requests in order, collecting the timers started. */
  function Run(secret: Option<string>, callTimers: map<CallId, Timestamp>, ds: seq<Delivery>): (r: RunResult)
    // no code path removes a registered call
    ensures callTimers.Keys <= r.callTimers.Keys
    decreases |ds|
  {
    if ds == [] then RunResult(callTimers, [])
    else
      var o := HandleEvent(secret, callTimers, ds[0].at, ds[0].request);
      var rest := Run(secret, o.callTimers, ds[1..]);
      RunResult(rest.callTimers, (if o.started.Some? then [o.started.value] else []) + rest.started)
  }

  /** No two timers in the list belong to the same call. */
  predicate DistinctCalls(ts: seq<Timer>)
  {
    forall i, j :: 0 <= i < j < |ts| ==> ts[i].callId != ts[j].callId
  }

  /**
   * At most one timer is ever started per call id: the timers a run starts
   * belong to distinct calls, none of them registered before the run, and all
   * of them registered after it.
   */
  lemma {:induction false} AtMostOneTimerPerCall(secret: Option<string>, callTimers: map<CallId, Timestamp>, ds: seq<Delivery>)
    ensures var r := Run(secret, callTimers, ds);
      DistinctCalls(r.started)
      && (forall i :: 0 <= i < |r.started| ==> r.started[i].callId !in callTimers && r.started[i].callId in r.callTimers)
    decreases |ds|
  {
    if ds != [] {
      var o := HandleEvent(secret, callTimers, ds[0].at, ds[0].request);
      AtMostOneTimerPerCall(secret, o.callTimers, ds[1..]);
      var rest := Run(secret, o.callTimers, ds[1..]);
      var head := if o.started.Some? then [o.started.value] else [];
      var all := head + rest.started;
      assert Run(secret, callTimers, ds).started == all;
      assert Run(secret, callTimers, ds).callTimers == rest.callTimers;
      assert forall i :: 0 <= i < |rest.started| ==> all[|head| + i] == rest.started[i];
      if o.started.Some? {
        assert all[0].callId in o.callTimers;
        assert o.callTimers.Keys <= rest.callTimers.Keys;
      }
    }
  }

  /**
   * Without a configured secret nothing is ever processed: a whole run leaves
   * the registry as it was and starts no timer.
   */
  lemma {:induction false} UnsetSecretProcessesNothing(secret: Option<string>, callTimers: map<CallId, Timestamp>, ds: seq<Delivery>)
    requires !Truthy(secret)
    ensures Run(secret, callTimers, ds) == RunResult(callTimers, [])
    decreases |ds|
  {
    if ds != [] {
      UnsetSecretProcessesNothing(secret, callTimers, ds[1..]);
    }
  }

  /**
   * The quirk of registering before looking for a control URL: an in-progress
   * event without one registers the call, so no later event can start a timer
   * for it.
   */
  lemma NoControlUrlBlocksLaterTimers(secret: Option<string>, callTimers: map<CallId, Timestamp>, d: Delivery, later: seq<Delivery>)
    requires VerifySignature(secret, d.request.secretHeader) && IsInProgress(d.request)
    requires d.request.callId.value !in callTimers && !Truthy(d.request.controlUrl)
    ensures forall t :: t in Run(secret, callTimers, [d] + later).started ==> t.callId != d.request.callId.value
  {
    var o := HandleEvent(secret, callTimers, d.at, d.request);
    assert ([d] + later)[1..] == later;
    AtMostOneTimerPerCall(secret, o.callTimers, later);
  }

  /**
   * A repeated in-progress event for a registered call is a no-op: the second
   * delivery changes nothing and starts nothing, whatever its control URL.
   */
  lemma RepeatedInProgressIsNoOp(secret: Option<string>, callTimers: map<CallId, Timestamp>, t1: Timestamp, t2: Timestamp, req: Request, again: Request)
    requires VerifySignature(secret, req.secretHeader) && IsInProgress(req)
    requires again.secretHeader == req.secretHeader && IsInProgress(again) && again.callId == req.callId
    ensures var first := HandleEvent(secret, callTimers, t1, req);
      HandleEvent(secret, first.callTimers, t2, again) == Outcome(OK, first.callTimers, None)
  {
  }

  /**
   * The process-wide state of app.py: the `call_timers` registry, the timer
   * threads still sleeping and the POSTs sent to control URLs so far.
   */
  class Server {
    const secret: Option<string>
    var callTimers: map<CallId, Timestamp>
    var pending: multiset<Timer>
    var sent: seq<SayAction>
    // every timer ever started, and those that have fired, in order
    ghost var started: seq<Timer>
    ghost var fired: seq<Timer>

    /**
     * Timers are started for distinct, registered calls; each started timer is
     * either still pending or has fired; each fired timer sent exactly its one
     * closing message.
     */
    ghost predicate Valid()
      reads this
    {
      && DistinctCalls(started)
      && (forall i :: 0 <= i < |started| ==> started[i].callId in callTimers)
      && multiset(fired) + pending == multiset(started)
      && |sent| == |fired|
      && (forall i :: 0 <= i < |fired| ==> sent[i] == FinalMessage(fired[i]))
    }

    constructor (secret: Option<string>)
      ensures Valid()
      ensures this.secret == secret && callTimers == map[] && pending == multiset{} && sent == []
    {
      this.secret := secret;
      callTimers := map[];
      pending := multiset{};
      sent := [];
      started := [];
      fired := [];
    }

    /** `handle_call_events`: one POST to `/server`, arriving at time `now`. */
    method HandleCallEvents(req: Request, now: Timestamp) returns (resp: Response)
      requires Valid()
      modifies this
      ensures Valid()
      ensures var o := HandleEvent(secret, old(callTimers), now, req);
        && resp == o.response
        && callTimers == o.callTimers
        && pending == old(pending) + (if o.started.Some? then multiset{o.started.value} else multiset{})
        && sent == old(sent)
    {
      if !VerifySignature(secret, req.secretHeader) {
        return UNAUTHORIZED;
      }
      if req.messageType == Some("status-update") {
        if req.status == Some("in-progress") && Truthy(req.callId) {
          var id := req.callId.value;
          if id !in callTimers {
            callTimers := callTimers[id := now];
            if Truthy(req.controlUrl) {
              var t := Timer(id, req.controlUrl.value);
              pending := pending + multiset{t};
              started := started + [t];
            }
          }
        }
      }
      resp := OK;
    }

    /**
     * `end_call_after_timeout`: a pending timer wakes up, after its 35-second
     * sleep, and POSTs the closing message to the URL it captured; the registry
     * is left alone. No clock is modelled, so any pending timer may fire next.
     */
    method EndCallAfterTimeout(t: Timer)
      requires Valid() && t in pending
      modifies this
      ensures Valid()
      ensures sent == old(sent) + [SayAction(t.controlUrl, "say", FINAL_MESSAGE_TEXT, true)]
      ensures pending == old(pending) - multiset{t}
      ensures callTimers == old(callTimers)
    {
      sent := sent + [FinalMessage(t)];
      pending := pending - multiset{t};
      fired := fired + [t];
    }
  }
}
