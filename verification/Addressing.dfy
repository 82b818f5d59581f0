/** Whole runs act on the right panes: from the time a handle names a pane, every action of every
    request for it is addressed to that pane, those that make it included. */
module Addressing {
  import opened Aiming
  import opened Entities
  import opened Keeping
  import opened Lifecycle
  import opened Rows
  import opened Runs
  import opened Spawning
  import opened Targets
  import opened Text

  // ---------------------------------------------------------------- requests for a handle

  lemma GoneIsSilent(aim: Aim, svc: Service, s: State, request: Request, h: string)
    requires Subject(request) == Some(h) && !Known(s, h) && Trim(h) != ""
    ensures OnlyAt(aim, s, Apply(svc, s, request))
  {
    SameLogAt(aim, s, s);
    AvailableAt(aim, svc, s);
  }

  lemma SubjectAims(aim: Aim, svc: Service, s: State, request: Request, h: string)
    requires Subject(request) == Some(h) && Anchored(aim, s, h) && Trim(h) != ""
    ensures OnlyAt(aim, s, Apply(svc, s, request))
  {
    match request
    case CapturePane(capture) => CaptureAims(aim, svc, s, capture);
    case SendText(send) => SendAims(aim, svc, s, send);
    case ReplaceLineIn(_, command, interrupt) => ReplaceAims(aim, svc, s, h, command, interrupt);
    case WaitFor(_, idleMs, timeoutMs) => WaitAims(aim, svc, s, h, idleMs, timeoutMs);
    case CloseHandle(_, force) => CloseAims(aim, svc, s, h, force);
    case _ =>
  }

  /** The handle, while it is registered, names the pane that is aimed at. */
  ghost predicate AnchoredIfKnown(aim: Aim, s: State, h: string) { Known(s, h) ==> Anchored(aim, s, h) }

  lemma AnchorFollows(aim: Aim, env: Env, s: State, e: Event, h: string)
    requires Injective(env) && Inv(env, s) && Issued(env, s, h) && AnchoredIfKnown(aim, s, h)
    ensures AnchoredIfKnown(aim, After(env, s, e), h)
  {
    EventFollows(env, s, e, h);
    EventKeepsInv(env, s, e);
  }

  /** Every request for the handle performs its actions on the pane that is aimed at and on no
      other, whatever happens between them. */
  ghost predicate ActsOnlyAt(aim: Aim, env: Env, s: State, events: seq<Event>, h: string)
    decreases |events|
  {
    events == []
    || (&& (Subject(events[0].request) == Some(h) ==> OnlyAt(aim, s, After(env, s, events[0])))
        && ActsOnlyAt(aim, env, After(env, s, events[0]), events[1..], h))
  }

  lemma {:induction false} RunActsOnlyAt(aim: Aim, env: Env, s: State, events: seq<Event>, h: string)
    requires Injective(env) && Inv(env, s) && Issued(env, s, h) && Trim(h) != "" && AnchoredIfKnown(aim, s, h)
    ensures ActsOnlyAt(aim, env, s, events, h)
    decreases |events|
  {
    if events != [] {
      var e := events[0];
      if Subject(e.request) == Some(h) {
        var svc := Service(env, e.targetId, e.backend);
        if Known(s, h) { SubjectAims(aim, svc, s, e.request, h); } else { GoneIsSilent(aim, svc, s, e.request, h); }
      }
      EventKeepsInv(env, s, e);
      EventIssues(env, s, e, h);
      AnchorFollows(aim, env, s, e, h);
      RunActsOnlyAt(aim, env, After(env, s, e), events[1..], h);
    }
  }

  /** From an empty registry on: once a handle names a pane, all that is done for it afterwards, in
      any run, is done to that pane, and nothing is done for it when it is gone. */
  lemma HandleActsOnItsPane(env: Env, before: seq<Event>, later: seq<Event>, h: string, b: Binding)
    requires Injective(env) && Trim(h) != ""
    requires Lookup(Run(env, Initial(), before).bindings, h) == Some(b) && b.paneId.Some?
    ensures ActsOnlyAt(Aim(b.session, "id:" + b.paneId.value), env, Run(env, Initial(), before), later, h)
  {
    InitialInv(env);
    RunKeepsInv(env, Initial(), before);
    KnownAreIssued(env, Initial(), before, h);
    RunActsOnlyAt(Aim(b.session, "id:" + b.paneId.value), env, Run(env, Initial(), before), later, h);
  }

  // ---------------------------------------------------------------- requests for no handle

  lemma {:induction false} RowsAt(aim: Aim, svc: Service, s: State, rows: seq<Row<Binding>>)
    ensures OnlyAt(aim, s, RevalidateRows(svc, s, rows).state)
    decreases |rows|
  {
    if rows != [] {
      var again := Refresh(svc, s, rows[0].handle);
      if !Owns(svc, rows[0].data) {
        RowsAt(aim, svc, s, rows[1..]);
      } else {
        RefreshAt(aim, svc, s, rows[0].handle);
        RowsAt(aim, svc, again.state, rows[1..]);
        OnlyAtTrans(aim, s, again.state, RevalidateRows(svc, again.state, rows[1..]).state);
      }
    }
  }

  lemma RevalidationAt(aim: Aim, svc: Service, s: State)
    ensures OnlyAt(aim, s, RevalidateAll(svc, s).state)
  {
    if IsRemote(svc) {
      RowsAt(aim, svc, s, s.bindings);
    } else {
      AvailableAt(aim, svc, s);
      var usable := EnsureAvailable(svc, s);
      RowsAt(aim, svc, usable.state, usable.state.bindings);
      OnlyAtTrans(aim, s, usable.state, RevalidateRows(svc, usable.state, usable.state.bindings).state);
    }
  }

  /** Listing, revalidation and cleanup act on no pane: what they do is at any aim whatever. */
  lemma UpkeepActsOnNothing(aim: Aim, svc: Service, s: State, request: Request)
    requires Subject(request).None? && !MakesHandle(request)
    ensures OnlyAt(aim, s, Apply(svc, s, request))
  {
    if request.CleanUp? || request.Pass? {
      SameLogAt(aim, s, Apply(svc, s, request));
    } else {
      RevalidationAt(aim, svc, s);
    }
  }

  // ---------------------------------------------------------------- spawn

  lemma PanesBeforeAt(aim: Aim, svc: Service, s: State, req: SpawnRequest)
    ensures OnlyAt(aim, s, PanesBefore(svc, s, req).state)
  {
  }

  lemma LaunchAt(aim: Aim, svc: Service, s: State, req: SpawnRequest)
    ensures OnlyAt(aim, s, LaunchAndRegister(svc, s, req).state)
  {
    PanesBeforeAt(aim, svc, s, req);
    var before := PanesBefore(svc, s, req);
    if before.result.Ok? {
      TickAt(aim, svc.env, before.state, LaunchSpawn);
      OnlyAtTrans(aim, s, before.state, LaunchPane(svc, before.state).state);
    }
  }

  lemma CaptureOnceAims(aim: Aim, svc: Service, s: State, h: string, b: Binding)
    requires Anchored(aim, s, h) && Aims(aim, b)
    ensures OnlyAt(aim, s, CaptureOnce(svc, s, h, b).state)
  {
    RetryAims(aim, svc, s, h, b, CaptureFailed, CaptureFull);
  }

  lemma CaptureFirstAims(aim: Aim, svc: Service, s: State, h: string)
    requires Anchored(aim, s, h)
    ensures OnlyAt(aim, s, CaptureFirst(svc, s, h).state)
  {
    RefreshedAims(aim, svc, s, h);
    var again := Refresh(svc, s, h);
    if again.result.Ok? {
      CaptureOnceAims(aim, svc, again.state, h, again.result.value);
      OnlyAtTrans(aim, s, again.state, CaptureFirst(svc, s, h).state);
    }
  }

  lemma WaitFirstAims(aim: Aim, svc: Service, s: State, h: string, b: Binding)
    requires Anchored(aim, s, h) && Aims(aim, b)
    ensures OnlyAt(aim, s, WaitFirst(svc, s, h, b).state)
  {
    AwaitIdleAims(aim, svc, s, h, b, 1200, 30000);
    AwaitIdleKeeps(svc, s, h, b, 1200, 30000);
    var waited := AwaitIdle(svc, s, h, b, 1200, 30000);
    if waited.result.Ok? {
      AnchorHolds(aim, h, s, waited.state);
      CaptureFirstAims(aim, svc, waited.state, h);
      OnlyAtTrans(aim, s, waited.state, WaitFirst(svc, s, h, b).state);
    }
  }

  lemma SettleAims(aim: Aim, svc: Service, s: State, h: string, req: SpawnRequest)
    requires Anchored(aim, s, h)
    ensures OnlyAt(aim, s, Settle(svc, s, h, req).state)
  {
    RefreshedAims(aim, svc, s, h);
    var again := Refresh(svc, s, h);
    if again.result.Ok? {
      WaitFirstAims(aim, svc, again.state, h, again.result.value);
      CaptureFirstAims(aim, svc, again.state, h);
      OnlyAtTrans(aim, s, again.state, Settle(svc, s, h, req).state);
    }
  }

  lemma ConcludeAt(aim: Aim, svc: Service, s: State, settled: Outcome<Settled>, h: string)
    requires OnlyAt(aim, s, settled.state)
    ensures OnlyAt(aim, s, Conclude(svc, settled, h).state)
  {
    RefreshAt(aim, svc, settled.state, h);
    OnlyAtTrans(aim, s, settled.state, Confirm(svc, settled.state, h).state);
  }

  /** A spawn acts on the pane it launched and on no other, however it ends; one whose launch fails or
      gives no pane acts on none. */
  lemma SpawnAims(aim: Aim, svc: Service, s: State, req: SpawnRequest)
    requires NamesUnused(svc.env, s)
    requires var launched := LaunchAndRegister(svc, s, req).result;
             launched.Ok? && !launched.value.detached ==> Aims(aim, launched.value.binding)
    ensures OnlyAt(aim, s, Spawn(svc, s, req).state)
  {
    LaunchAt(aim, svc, s, req);
    LaunchAdds(svc, s, req);
    var launched := LaunchAndRegister(svc, s, req);
    if launched.result.Ok? && !launched.result.value.detached {
      var h := launched.result.value.handle;
      SettleAims(aim, svc, launched.state, h, req);
      var settled := Settle(svc, launched.state, h, req);
      OnlyAtTrans(aim, s, launched.state, settled.state);
      ConcludeAt(aim, svc, s, settled, h);
    }
  }

  // ---------------------------------------------------------------- attach

  lemma AttachToAims(svc: Service, s: State, t: Target, alias: Option<string>)
    ensures OnlyAt(Aim(t.session, t.selector), s, AttachTo(svc, s, t, alias).state)
  {
    var h := svc.env.handle(s.minted);
    var b := AttachedBinding(svc, t, alias, s.time);
    DoAims(Aim(t.session, t.selector), svc, AttachRegister(svc, s, h, b), CaptureFull, b);
  }

  lemma LocationAt(aim: Aim, svc: Service, s: State, session: string, intent: LocationIntent, code: ErrorCode)
    ensures OnlyAt(aim, s, ResolveLocation(svc, s, session, intent, code).state)
  {
    TickAt(aim, svc.env, s, ListTargets(session));
  }

  /** An attach reads the pane that its new handle names and no other; one that fails, none. */
  lemma AttachAims(aim: Aim, svc: Service, s: State, session: string, intent: LocationIntent, alias: Option<string>)
    requires NamesUnused(svc.env, s)
    requires var r := Attach(svc, s, session, intent, alias);
             r.result.Ok? ==> Anchored(aim, r.state, r.result.value.handle)
    ensures OnlyAt(aim, s, Attach(svc, s, session, intent, alias).state)
  {
    AvailableAt(aim, svc, s);
    var usable := EnsureAvailable(svc, s);
    if usable.result.Ok? {
      LocationAt(aim, svc, usable.state, session, intent, AttachFailed);
      LocationIsCanonical(svc, usable.state, session, intent, AttachFailed);
      var found := ResolveLocation(svc, usable.state, session, intent, AttachFailed);
      OnlyAtTrans(aim, s, usable.state, found.state);
      if found.result.Ok? {
        QuietTrans(s, usable.state, found.state);
        QuietKeepsNamesUnused(svc.env, s, found.state);
        AttachedIsOwned(svc, found.state, found.result.value, alias);
        AttachToAims(svc, found.state, found.result.value, alias);
        OnlyAtTrans(aim, s, found.state, Attach(svc, s, session, intent, alias).state);
      }
    }
  }
}
