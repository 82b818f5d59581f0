/** A command line sent to a shell, and its output and exit code found again in a later capture. */
module Interactions {
  import opened Bounds
  import opened Entities
  import opened Keeping
  import opened Lifecycle
  import opened Markers
  import opened Operations
  import opened Text

  // ---------------------------------------------------------------- what a send leaves behind

  ghost predicate Awaits(o: Observation, id: string) {
    o.interactionId == Some(id) && o.interactionCompletedAt.None? && o.interactionExitCode.None?
  }

  lemma AfterSendAwaits(env: Env, o: Observation, req: SendRequest, plan: SendPlan, fellBack: bool, now: nat)
    requires plan.interactionId.Some?
    ensures Awaits(AfterSend(env, o, req, plan, fellBack, now), plan.interactionId.value)
  {
  }

  /** A send of a command line to a shell leaves the observation waiting for the interaction whose
      id was typed, whatever the fallback did in between. */
  lemma SendAwaitsItsInteraction(svc: Service, s: State, req: SendRequest)
    requires SendToHandle(svc, s, req).result.Ok?
    ensures var plan := PlanSend(svc, s, req).result.value;
            plan.interactionId.Some?
            ==> Awaits(ObservationOf(SendToHandle(svc, s, req).state, req.handle), plan.interactionId.value)
  {
    var planned := PlanSend(svc, s, req);
    var plan := planned.result.value;
    var sent := Deliver(svc, planned.state, req, plan);
    var o := AfterSend(svc.env, ObservationOf(planned.state, req.handle), req, plan, sent.result.value, sent.state.time);
    SlotPutIsKept(req.handle, planned.state.observations, o);
    if plan.interactionId.Some? {
      AfterSendAwaits(svc.env, ObservationOf(planned.state, req.handle), req, plan, sent.result.value, sent.state.time);
    }
  }

  /** The n-th call typed the text, and the backend took it. */
  ghost predicate TypedAt(svc: Service, log: seq<Call>, n: nat, payload: Payload) {
    && n < |log|
    && log[n].Perform?
    && log[n].action == SendInput(payload.text, payload.submit)
    && svc.backend.perform(n, log[n].action, log[n].session, log[n].selector).Ok?
  }

  lemma TypedExtends(svc: Service, log: seq<Call>, longer: seq<Call>, n: nat, payload: Payload)
    requires TypedAt(svc, log, n, payload) && log <= longer
    ensures TypedAt(svc, longer, n, payload)
  {
  }

  lemma AnsweredIsTyped(svc: Service, s: State, snapshot: Snapshot, payload: Payload) returns (n: nat)
    requires JustAnswered(svc, s, SendInput(payload.text, payload.submit), snapshot)
    ensures TypedAt(svc, s.log, n, payload)
  {
    n := |s.log| - 1;
  }

  lemma RetryTypes(svc: Service, s: State, h: string, b: Binding, payload: Payload) returns (n: nat)
    requires Retry(svc, s, h, b, SendFailed, SendInput(payload.text, payload.submit)).result.Ok?
    ensures TypedAt(svc, Retry(svc, s, h, b, SendFailed, SendInput(payload.text, payload.submit)).state.log, n, payload)
  {
    var action := SendInput(payload.text, payload.submit);
    RetryAnswers(svc, s, h, b, SendFailed, action);
    var sent := Retry(svc, s, h, b, SendFailed, action);
    n := AnsweredIsTyped(svc, sent.state, sent.result.value, payload);
  }

  lemma DeliverEnds(svc: Service, s: State, req: SendRequest, plan: SendPlan)
    requires Deliver(svc, s, req, plan).result.Ok?
    ensures var sent := Retry(svc, s, req.handle, plan.binding, SendFailed,
                              SendInput(plan.payload.text, plan.payload.submit));
            sent.result.Ok? && Deliver(svc, s, req, plan).state == AfterTyping(svc, sent.state, req, plan).state
  {
  }

  lemma AfterTypingIsLater(svc: Service, s: State, req: SendRequest, plan: SendPlan)
    ensures s.log <= AfterTyping(svc, s, req, plan).state.log
  {
    AfterTypingKeeps(svc, s, req, plan);
  }

  lemma DeliverTypes(svc: Service, s: State, req: SendRequest, plan: SendPlan) returns (n: nat)
    requires Deliver(svc, s, req, plan).result.Ok?
    ensures TypedAt(svc, Deliver(svc, s, req, plan).state.log, n, plan.payload)
  {
    DeliverEnds(svc, s, req, plan);
    var t := Retry(svc, s, req.handle, plan.binding, SendFailed,
                   SendInput(plan.payload.text, plan.payload.submit)).state;
    n := RetryTypes(svc, s, req.handle, plan.binding, plan.payload);
    AfterTypingIsLater(svc, t, req, plan);
    TypedExtends(svc, t.log, AfterTyping(svc, t, req, plan).state.log, n, plan.payload);
  }

  /** A send that succeeds typed exactly its payload, and the backend took it. */
  lemma SendTypesPayload(svc: Service, s: State, req: SendRequest) returns (n: nat)
    requires SendToHandle(svc, s, req).result.Ok?
    ensures TypedAt(svc, SendToHandle(svc, s, req).state.log, n, PlanSend(svc, s, req).result.value.payload)
  {
    var planned := PlanSend(svc, s, req);
    n := DeliverTypes(svc, planned.state, req, planned.result.value);
  }

  /** Raw input is typed as it is: the text, then the keys, with nothing put before or around it. */
  lemma RawIsVerbatim(svc: Service, s: State, req: SendRequest)
    requires PlanSend(svc, s, req).result.Ok? && req.inputMode == Some(RawInput)
    ensures var plan := PlanSend(svc, s, req).result.value;
            && KeySequences(svc.env, req.keys).Some?
            && plan.payload == Payload(req.text + KeySequences(svc.env, req.keys).value, false)
            && plan.interactionId.None? && !plan.clears
  {
  }

  // ---------------------------------------------------------------- what a capture finds

  /** Once the wrapper has printed the command's block, among any others, the next capture completes
      the interaction with the command's exit code, in `current` mode returns the command's
      output, and a wait answers by the marker. */
  lemma CaptureCompletesInteraction(env: Env, o: Observation, snapshot: Snapshot, blocks: seq<Block>, k: nat,
                                    idLength: nat, rest: string)
    requires k < |blocks| && AllWellFormed(blocks, idLength)
    requires snapshot.content == OutputFrom(blocks, 0, rest) && o.interactionId == Some(blocks[k].id)
    ensures var after := AfterCapture(env, o, snapshot);
            && after.interactionId == o.interactionId
            && after.interactionCompletedAt == Some(snapshot.capturedAt)
            && after.interactionExitCode == Some(blocks[k].code)
    ensures Selected(Current, snapshot.content, o, InteractionIn(snapshot.content, o))
            == TrimStartNewlines(blocks[k].body + "\n")
    ensures forall now: nat ::
              WaitAnswer(snapshot, o, now) == WaitResponse(now, true, o.interactionId, Some(true), Some(blocks[k].code))
  {
    ParsingInvertsWrapper(blocks, k, idLength, rest);
  }

  // ---------------------------------------------------------------- what an echo does

  lemma Regrouped(before: string, a: string, start: string, b: string, text: string, c: string, end: string, d: string,
                  rest: string)
    ensures before + (a + start + b + text + c + end + d) + rest
            == (before + a) + (start + ((b + text + c) + (end + (d + rest))))
  {
  }

  /** A line as a shell echoes it: the wrapper line that was typed, among anything else. */
  ghost predicate Echoes(content: string, text: string, id: string) {
    exists before, rest ::
      content == before + InlinePosix(text, id) + rest || content == before + InlineFish(text, id) + rest
  }

  lemma PosixEchoCompletes(before: string, text: string, id: string, rest: string)
    ensures var found := ParseInteractionCapture(before + InlinePosix(text, id) + rest, id);
            found.Some? && found.value.completed
  {
    var a, b, c := "printf '", "\\n'; ", "; __zellij_mcp_status=$?; printf '\\n";
    var d := "%s\\n' \"$__zellij_mcp_status\"";
    Regrouped(before, a, StartMarker(id), b, text, c, EndMarker(id), d, rest);
    MarkersInOrderComplete(before + a, b + text + c, d + rest, id);
  }

  lemma FishEchoCompletes(before: string, text: string, id: string, rest: string)
    ensures var found := ParseInteractionCapture(before + InlineFish(text, id) + rest, id);
            found.Some? && found.value.completed
  {
    var a, b, c := "printf '", "\\n'; begin; ", "; end; set __zellij_mcp_status $status; printf '\\n";
    var d := "%s\\n' $__zellij_mcp_status";
    Regrouped(before, a, StartMarker(id), b, text, c, EndMarker(id), d, rest);
    MarkersInOrderComplete(before + a, b + text + c, d + rest, id);
  }

  /** The typed wrapper line holds both markers. So a pane that echoes it shows a completed
      interaction before the command has run, and a capture and a wait report it as such. */
  lemma EchoAloneCompletes(env: Env, o: Observation, snapshot: Snapshot, text: string, id: string, now: nat)
    requires Echoes(snapshot.content, text, id) && o.interactionId == Some(id)
    ensures AfterCapture(env, o, snapshot).interactionCompletedAt == Some(snapshot.capturedAt)
    ensures WaitAnswer(snapshot, o, now).byMarker && WaitAnswer(snapshot, o, now).completed == Some(true)
  {
    var before, rest :|
      || snapshot.content == before + InlinePosix(text, id) + rest
      || snapshot.content == before + InlineFish(text, id) + rest;
    PosixEchoCompletes(before, text, id, rest);
    FishEchoCompletes(before, text, id, rest);
  }
}
