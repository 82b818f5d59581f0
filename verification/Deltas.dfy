/** Delta captures over a run: the baseline and the deltas returned since add up to the pane. */
module Deltas {
  import opened Bounds
  import opened Entities
  import opened Keeping
  import opened Lifecycle
  import opened Operations
  import opened Paging
  import opened Rows
  import opened Runs
  import opened Text
  import opened Upkeep

  // ---------------------------------------------------------------- retries leave observations alone

  lemma {:induction false} RetryFromObservesNothing(svc: Service, s: State, h: string, b: Binding, code: ErrorCode,
                                                    action: Action, attempt: nat)
    requires attempt < 3
    ensures RetryFrom(svc, s, h, b, code, action, attempt).state.observations == s.observations
    decreases 3 - attempt
  {
    var done := Do(svc, s, action, b);
    if done.result.Err? && IsMissing(done.result.error) {
      RefreshKeeps(svc, done.state, h);
      var again := Refresh(svc, done.state, h);
      if again.result.Ok? && IsActive(again.result.value) && attempt < 2 {
        RetryFromObservesNothing(svc, Sleep(again.state, 150), h, again.result.value, code, action, attempt + 1);
      }
    }
  }

  lemma RetryObservesNothing(svc: Service, s: State, h: string, b: Binding, code: ErrorCode, action: Action)
    ensures Retry(svc, s, h, b, code, action).state.observations == s.observations
  {
    RetryFromObservesNothing(svc, s, h, b, code, action, 0);
    RetryFromObservesNothing(svc, EnsureReady(svc, s, b.session, code).state, h, b, code, action, 0);
  }

  // ---------------------------------------------------------------- one delta capture

  /** The text last captured from a handle's pane, nothing when there was no capture. */
  function LastText(s: State, h: string): string {
    match ObservationOf(s, h).lastContent
    case Some(text) => text
    case None => ""
  }

  function DeltaOf(h: string): CaptureRequest { CaptureRequest(h, Delta, None, None, None, None, false) }

  lemma WholeWindow(text: string)
    ensures Cut(text, Lines(None, None)) == Window(text, false, None)
  {
  }

  lemma CompletionKeepsText(env: Env, o: Observation, snapshot: Snapshot)
    ensures AfterCapture(env, o, snapshot).lastContent == Some(snapshot.content)
  {
  }

  /** What a delta capture of an active handle returns and records. */
  lemma DeltaOfActive(svc: Service, s: State, h: string, b: Binding)
    requires Lookup(s.bindings, h) == Some(b)
    ensures var r := CaptureActive(svc, s, DeltaOf(h), Lines(None, None), b);
            if r.result.Ok?
            then ObservationOf(r.state, h).lastContent.Some?
                 && r.result.value.window.content
                    == SuffixAfterBaseline(LastText(r.state, h), ObservationOf(s, h).lastContent)
            else r.state.observations == s.observations
  {
    RetryObservesNothing(svc, s, h, b, CaptureFailed, CaptureFull);
    var captured := Retry(svc, s, h, b, CaptureFailed, CaptureFull);
    if captured.result.Ok? {
      var o := ObservationOf(captured.state, h);
      CompletionKeepsText(svc.env, o, captured.result.value);
      SlotPutIsKept(h, captured.state.observations, AfterCapture(svc.env, o, captured.result.value));
      WholeWindow(SuffixAfterBaseline(captured.result.value.content, o.lastContent));
    }
  }

  /** A delta capture that succeeds returns what the new text adds to the last one, or the whole of
      it when it does not begin with that; one that fails changes no observation. */
  lemma DeltaCapture(svc: Service, s: State, h: string)
    ensures var r := Capture(svc, s, DeltaOf(h));
            if r.result.Ok?
            then r.result.value.window.content
                 == SuffixAfterBaseline(LastText(r.state, h), ObservationOf(s, h).lastContent)
            else r.state.observations == s.observations
  {
    if Known(s, h) {
      var usable := EnsureUsable(svc, s, Lookup(s.bindings, h).value);
      if usable.result.Ok? {
        SyncKeeps(svc, usable.state, h);
        RefreshKeeps(svc, usable.state, h);
        var synced := RefreshAndSync(svc, usable.state, h);
        if synced.result.Ok? && IsActive(synced.result.value) {
          DeltaOfActive(svc, synced.state, h, synced.result.value);
        }
      }
    }
  }

  /** A capture in any mode that succeeds records the text the backend gave as its last answer. */
  lemma CaptureRecordsAnswer(svc: Service, s: State, req: CaptureRequest) returns (snapshot: Snapshot)
    requires Capture(svc, s, req).result.Ok?
    ensures var t := Capture(svc, s, req).state;
            JustAnswered(svc, t, CaptureFull, snapshot)
            && ObservationOf(t, req.handle).lastContent == Some(snapshot.content)
  {
    var h := req.handle;
    var usable := EnsureUsable(svc, s, Lookup(s.bindings, h).value);
    var synced := RefreshAndSync(svc, usable.state, h);
    var captured := Retry(svc, synced.state, h, synced.result.value, CaptureFailed, CaptureFull);
    RetryAnswers(svc, synced.state, h, synced.result.value, CaptureFailed, CaptureFull);
    snapshot := captured.result.value;
    var o := AfterCapture(svc.env, ObservationOf(captured.state, h), snapshot);
    CompletionKeepsText(svc.env, ObservationOf(captured.state, h), snapshot);
    SlotPutIsKept(h, captured.state.observations, o);
  }

  lemma DeltaAddsUp(svc: Service, s: State, h: string)
    requires var r := Capture(svc, s, DeltaOf(h)); r.result.Ok? && LastText(s, h) <= LastText(r.state, h)
    ensures var r := Capture(svc, s, DeltaOf(h));
            LastText(s, h) + r.result.value.window.content == LastText(r.state, h)
  {
    DeltaCapture(svc, s, h);
    var text := LastText(Capture(svc, s, DeltaOf(h)).state, h);
    DeltaCompletesBaseline(text, ObservationOf(s, h).lastContent);
  }

  // ---------------------------------------------------------------- runs of deltas

  predicate IsDelta(e: Event, h: string) { e.request == CapturePane(DeltaOf(h)) }

  /** What a delta capture among the events gives its caller. */
  function DeltaText(env: Env, s: State, e: Event, h: string): string {
    if !IsDelta(e, h) then ""
    else
      match Capture(Service(env, e.targetId, e.backend), s, DeltaOf(h)).result
      case Ok(answer) => answer.window.content
      case Err(_) => ""
  }

  function DeltaTexts(env: Env, s: State, events: seq<Event>, h: string): string
    decreases |events|
  {
    if events == [] then ""
    else DeltaText(env, s, events[0], h) + DeltaTexts(env, After(env, s, events[0]), events[1..], h)
  }

  /** The pane's text only grows from delta capture to delta capture, and no other event observes
      the pane. */
  predicate AppendOnly(env: Env, s: State, events: seq<Event>, h: string)
    decreases |events|
  {
    events == []
    || (var t := After(env, s, events[0]);
        && (if IsDelta(events[0], h) then LastText(s, h) <= LastText(t, h) else LastText(t, h) == LastText(s, h))
        && AppendOnly(env, t, events[1..], h))
  }

  lemma EventAddsUp(env: Env, s: State, e: Event, h: string)
    requires IsDelta(e, h) ==> LastText(s, h) <= LastText(After(env, s, e), h)
    requires !IsDelta(e, h) ==> LastText(After(env, s, e), h) == LastText(s, h)
    ensures LastText(s, h) + DeltaText(env, s, e, h) == LastText(After(env, s, e), h)
  {
    if IsDelta(e, h) {
      var svc := Service(env, e.targetId, e.backend);
      DeltaCapture(svc, s, h);
      if Capture(svc, s, DeltaOf(h)).result.Ok? { DeltaAddsUp(svc, s, h); }
    }
  }

  /** The text before the run, followed by every delta returned in it, is the text at its end. */
  lemma {:induction false} DeltasReconstruct(env: Env, s: State, events: seq<Event>, h: string)
    requires AppendOnly(env, s, events, h)
    ensures LastText(s, h) + DeltaTexts(env, s, events, h) == LastText(Run(env, s, events), h)
    decreases |events|
  {
    if events != [] {
      var t := After(env, s, events[0]);
      EventAddsUp(env, s, events[0], h);
      DeltasReconstruct(env, t, events[1..], h);
      Assoc(LastText(s, h), DeltaText(env, s, events[0], h), DeltaTexts(env, t, events[1..], h));
    }
  }

  /** The events that observe a pane are the requests that name its handle, and the cleanup that
      removes it: every other event leaves its last text as it is. */
  lemma OthersDoNotObserve(env: Env, s: State, e: Event, h: string)
    requires Injective(env) && Inv(env, s) && Issued(env, s, h)
    requires Subject(e.request) != Some(h) && !e.request.CleanUp?
    ensures LastText(After(env, s, e), h) == LastText(s, h)
  {
    var svc, t := Service(env, e.targetId, e.backend), After(env, s, e);
    if Subject(e.request).Some? {
      SubjectMoves(svc, s, e.request);
      OthersUntouched(Subject(e.request).value, s, t, h);
    } else if MakesHandle(e.request) {
      var made := MakingAdds(svc, s, e.request);
      if made.Some? {
        AddedIsNew(env, made.value, s, t, h);
        AddedSparesOthers(env, made.value, s, t, h);
      }
    } else if !e.request.Pass? {
      RevalidationIsSteady(svc, s, h);
    }
  }
}
