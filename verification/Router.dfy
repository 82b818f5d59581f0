/** Routing requests to backends: canonical target ids, and the backend cache that concurrent
    callers share. */
module Router {
  import opened Text
  import opened Targets

  // ---------------------------------------------------------------- target ids

  /** `TargetRouter::resolve_target_id`. */
  function ResolveTargetId(target: Option<string>): string {
    if target.None? || Trim(target.value) == "" then "local"
    else
      var t := Trim(target.value);
      if t == "local" || "ssh:" <= t then t else "ssh:" + t
  }

  /** The id the remote backend factory gives the service it builds, if it builds one. */
  function FactoryTargetId(target: string): Option<string> {
    var t := Trim(target);
    if t == "" || t == "local" then None
    else Some("ssh:" + if "ssh:" <= t then t[4..] else t)
  }

  ghost predicate IsCanonical(id: string) {
    ResolveTargetId(Some(id)) == id
  }

  lemma ResolvedIsTight(target: Option<string>)
    ensures Tight(ResolveTargetId(target)) && ResolveTargetId(target) != ""
    ensures ResolveTargetId(target) == "local" || "ssh:" <= ResolveTargetId(target)
  {
    if target.Some? {
      TrimIsTight(target.value);
      var t := Trim(target.value);
      if t != "" { SshFormIsTight(t); }
    }
  }

  /** Resolving an id again changes nothing. */
  lemma ResolvedIsCanonical(target: Option<string>)
    ensures IsCanonical(ResolveTargetId(target))
  {
    ResolvedIsTight(target);
    TrimTight(ResolveTargetId(target));
  }

  lemma CanonicalForm(id: string)
    requires IsCanonical(id)
    ensures Trim(id) == id && id != "" && (id == "local" || "ssh:" <= id)
  {
    ResolvedIsTight(Some(id));
    TrimTight(id);
  }

  /** The factory's target id is the cache key: a service built for a canonical id persists
      bindings under that very id. Only `local` is not built. */
  lemma FactoryAgreesWithKey(id: string)
    requires IsCanonical(id)
    ensures FactoryTargetId(id) == if id == "local" then None else Some(id)
  {
    CanonicalForm(id);
    assert "ssh:" <= id ==> "ssh:" + id[4..] == id;
  }

  /** Every service the factory builds has a canonical target id; only a canonical key is built
      under its own. */
  lemma FactoryIsCanonical(key: string)
    requires FactoryTargetId(key).Some?
    ensures IsCanonical(FactoryTargetId(key).value)
    ensures FactoryTargetId(key).value == key <==> IsCanonical(key)
  {
    var t := Trim(key);
    TrimIsTight(key);
    SshFormIsTight(t);
    assert "ssh:" <= t ==> "ssh:" + t[4..] == t;
    TrimTight(FactoryTargetId(key).value);
    if IsCanonical(key) { FactoryAgreesWithKey(key); }
  }

  lemma SshFormIsTight(t: string)
    requires Tight(t) && t != ""
    ensures Tight("ssh:" + t)
  {
    var id := "ssh:" + t;
    assert id[0] == 's' && id[|id| - 1] == t[|t| - 1];
  }

  lemma PaddingIsIgnored(left: string, alias: string, right: string)
    requires Blank(left) && Blank(right) && Tight(alias)
    ensures ResolveTargetId(Some(left + alias + right)) == ResolveTargetId(Some(alias))
  {
    TrimPadded(left, alias, right);
    TrimTight(alias);
  }

  /** An alias and its `ssh:` form name one target exactly when the alias is neither `local` nor
      already in `ssh:` form. */
  lemma AliasFormsShareId(alias: string)
    requires Tight(alias) && alias != ""
    ensures ResolveTargetId(Some(alias)) == ResolveTargetId(Some("ssh:" + alias))
            <==> alias != "local" && !("ssh:" <= alias)
  {
    var form := "ssh:" + alias;
    SshFormIsTight(alias);
    TrimTight(alias);
    TrimTight(form);
    assert |form| == |alias| + 4;
  }

  // ---------------------------------------------------------------- the shared cache

  /** A backend instance; the serial number tells instances apart. */
  datatype Backend = Backend(serial: nat, targetId: string)

  datatype RouteError = TargetNotFound | HandleNotFound | FactoryFailed

  /** Where a caller is in `backend_for_target_id`: before the read lock, after a miss, holding a
      backend it built, or finished. */
  datatype Phase =
    | Probing
    | Missed
    | Built(backend: Backend)
    | Done(backend: Backend)
    | Failed(error: RouteError)

  /** A request under way; `byTarget` tells the ones that select a target from the ones that name a
      handle. Only the first make handles. */
  datatype Caller = Caller(key: string, byTarget: bool, phase: Phase)

  /** A persisted binding. `owner` is the instance that made it in this run of the daemon, which the
      code does not store: it is here to say where the handle should go. A binding that was in the
      registry when the daemon started has none. */
  datatype Route = Route(handle: string, targetId: string, owner: Option<Backend>)

  datatype System = System(cache: map<string, Backend>, callers: seq<Caller>, built: nat, registry: seq<Route>)

  datatype Action =
    | ArriveByTarget(target: Option<string>)
    | ArriveByHandle(handle: string)
    | Probe(i: nat)
    | Build(i: nat, fails: bool)
    | Insert(i: nat)
    | CreateHandle(i: nat, handle: string)
    | RemoveHandle(handle: string)

  function FindRoute(registry: seq<Route>, handle: string): Option<Route> {
    if registry == [] then None
    else if registry[0].handle == handle then Some(registry[0])
    else FindRoute(registry[1..], handle)
  }

  function RemoveRoute(registry: seq<Route>, handle: string): seq<Route> {
    if registry == [] then []
    else (if registry[0].handle == handle then [] else [registry[0]]) + RemoveRoute(registry[1..], handle)
  }

  function Arrive(s: System, caller: Caller): System {
    s.(callers := s.callers + [caller])
  }

  function SetPhase(s: System, i: nat, phase: Phase): System
    requires i < |s.callers|
  {
    s.(callers := s.callers[i := s.callers[i].(phase := phase)])
  }

  /** What the factory call comes to for a key. */
  function BuildPhase(key: string, serial: nat, fails: bool): Phase {
    match FactoryTargetId(key)
    case None => Failed(TargetNotFound)
    case Some(id) => if fails then Failed(FactoryFailed) else Built(Backend(serial, id))
  }

  /** `entry(key).or_insert(backend)` under the write lock. */
  function InsertIfAbsent(cache: map<string, Backend>, key: string, backend: Backend): map<string, Backend> {
    if key in cache then cache else cache[key := backend]
  }

  /** One atomic step of one caller; a step that does not apply changes nothing. */
  function Step(s: System, a: Action): System {
    match a
    case ArriveByTarget(target) => Arrive(s, Caller(ResolveTargetId(target), true, Probing))
    case ArriveByHandle(handle) =>
      (match FindRoute(s.registry, handle)
       case Some(route) => Arrive(s, Caller(route.targetId, false, Probing))
       case None => Arrive(s, Caller("", false, Failed(HandleNotFound))))
    case Probe(i) =>
      if i < |s.callers| && s.callers[i].phase.Probing? then
        var key := s.callers[i].key;
        SetPhase(s, i, if key in s.cache then Done(s.cache[key]) else Missed)
      else s
    case Build(i, fails) =>
      if i < |s.callers| && s.callers[i].phase.Missed? then
        SetPhase(s, i, BuildPhase(s.callers[i].key, s.built, fails)).(built := s.built + 1)
      else s
    case Insert(i) =>
      if i < |s.callers| && s.callers[i].phase.Built? then
        var key := s.callers[i].key;
        var cache := InsertIfAbsent(s.cache, key, s.callers[i].phase.backend);
        SetPhase(s, i, Done(cache[key])).(cache := cache)
      else s
    case CreateHandle(i, handle) =>
      if i < |s.callers| && MayCreate(s.callers[i]) && FindRoute(s.registry, handle).None? then
        var backend := s.callers[i].phase.backend;
        s.(registry := s.registry + [Route(handle, backend.targetId, Some(backend))])
      else s
    case RemoveHandle(handle) => s.(registry := RemoveRoute(s.registry, handle))
  }

  predicate MayCreate(c: Caller) {
    c.byTarget && c.phase.Done?
  }

  function Run(s: System, actions: seq<Action>): System
    decreases |actions|
  {
    if actions == [] then s else Run(Step(s, actions[0]), actions[1..])
  }

  /** The daemon starts with its local service cached, no requests, and whatever registry earlier
      runs left on disk, under whatever target ids. */
  function Started(registry: seq<Route>): System {
    System(map["local" := Backend(0, "local")], [], 1, registry)
  }

  predicate AllPersisted(registry: seq<Route>) {
    forall i :: 0 <= i < |registry| ==> registry[i].owner.None?
  }

  // ---------------------------------------------------------------- what every step keeps

  /** The instance is the local service, or one the factory builds for the key. */
  ghost predicate Fitting(key: string, backend: Backend) {
    (key == "local" && backend.targetId == "local") || FactoryTargetId(key) == Some(backend.targetId)
  }

  lemma FittingIsCanonical(key: string, backend: Backend)
    requires Fitting(key, backend)
    ensures IsCanonical(backend.targetId)
    ensures backend.targetId == key <==> IsCanonical(key)
  {
    if key == "local" {
      TrimTight("local");
    } else {
      FactoryIsCanonical(key);
    }
  }

  ghost predicate CacheFits(cache: map<string, Backend>) {
    forall k :: k in cache ==> Fitting(k, cache[k])
  }

  ghost predicate CallerFits(cache: map<string, Backend>, c: Caller) {
    && (c.byTarget ==> IsCanonical(c.key))
    && (c.phase.Built? ==> Fitting(c.key, c.phase.backend))
    && (c.phase.Done? ==> c.key in cache && cache[c.key] == c.phase.backend)
  }

  /** A handle made in this run is stored under its maker's target id, where its maker is cached. */
  ghost predicate RouteFits(cache: map<string, Backend>, r: Route) {
    r.owner.Some? ==> r.targetId in cache && cache[r.targetId] == r.owner.value
  }

  ghost predicate FinishedWith(c: Caller, key: string) {
    c.key == key && c.phase.Done?
  }

  /** Somebody fetched the entry: the cache is filled by callers only. */
  ghost predicate Earned(callers: seq<Caller>, key: string) {
    key == "local" || exists i :: 0 <= i < |callers| && FinishedWith(callers[i], key)
  }

  ghost predicate CacheIsEarned(s: System) {
    forall k :: k in s.cache ==> Earned(s.callers, k)
  }

  ghost predicate Inv(s: System) {
    && "local" in s.cache
    && CacheFits(s.cache)
    && CacheIsEarned(s)
    && (forall i :: 0 <= i < |s.callers| ==> CallerFits(s.cache, s.callers[i]))
    && (forall i :: 0 <= i < |s.registry| ==> RouteFits(s.cache, s.registry[i]))
  }

  /** Every entry of the one cache is in the other, unchanged. */
  ghost predicate Grows(a: map<string, Backend>, b: map<string, Backend>) {
    forall k :: k in a ==> k in b && b[k] == a[k]
  }

  /** Callers stay, with the key they arrived with, and finished ones stay finished. */
  ghost predicate CallersStay(a: seq<Caller>, b: seq<Caller>) {
    && |a| <= |b|
    && (forall i :: 0 <= i < |a| ==> b[i].key == a[i].key && (a[i].phase.Done? ==> b[i] == a[i]))
  }

  lemma {:induction false} FoundRouteIsStored(registry: seq<Route>, handle: string)
    requires FindRoute(registry, handle).Some?
    ensures FindRoute(registry, handle).value in registry && FindRoute(registry, handle).value.handle == handle
  {
    if registry[0].handle != handle { FoundRouteIsStored(registry[1..], handle); }
  }

  lemma {:induction false} RemovedRoutesFit(cache: map<string, Backend>, registry: seq<Route>, handle: string)
    requires forall i :: 0 <= i < |registry| ==> RouteFits(cache, registry[i])
    ensures forall i :: 0 <= i < |RemoveRoute(registry, handle)| ==> RouteFits(cache, RemoveRoute(registry, handle)[i])
    ensures FindRoute(RemoveRoute(registry, handle), handle).None?
  {
    if registry != [] {
      RemovedRoutesFit(cache, registry[1..], handle);
      var rest := RemoveRoute(registry[1..], handle);
      if registry[0].handle != handle {
        assert RemoveRoute(registry, handle) == [registry[0]] + rest;
        assert ([registry[0]] + rest)[1..] == rest;
      } else {
        assert RemoveRoute(registry, handle) == rest;
      }
    }
  }

  lemma EarnedStays(a: seq<Caller>, b: seq<Caller>, key: string)
    requires Earned(a, key) && CallersStay(a, b)
    ensures Earned(b, key)
  {
    if key != "local" {
      var i :| 0 <= i < |a| && FinishedWith(a[i], key);
      assert FinishedWith(b[i], key);
    }
  }

  lemma PhaseKeepsInv(s: System, i: nat, phase: Phase, cache: map<string, Backend>)
    requires Inv(s) && i < |s.callers| && !s.callers[i].phase.Done?
    requires Grows(s.cache, cache) && CacheFits(cache)
    requires CallerFits(cache, s.callers[i].(phase := phase))
    requires forall k :: k in cache && k !in s.cache ==> k == s.callers[i].key && phase.Done?
    ensures Inv(SetPhase(s, i, phase).(cache := cache))
  {
    var t := SetPhase(s, i, phase).(cache := cache);
    forall k | 0 <= k < |s.callers| && k != i ensures CallerFits(cache, s.callers[k]) {
      assert CallerFits(s.cache, s.callers[k]);
    }
    forall k | 0 <= k < |s.registry| ensures RouteFits(cache, s.registry[k]) {
      assert RouteFits(s.cache, s.registry[k]);
    }
    forall k | k in cache ensures Earned(t.callers, k) {
      if k in s.cache {
        EarnedStays(s.callers, t.callers, k);
      } else {
        assert FinishedWith(t.callers[i], k);
      }
    }
  }

  lemma ArrivalKeepsInv(s: System, caller: Caller)
    requires Inv(s) && CallerFits(s.cache, caller)
    ensures Inv(Arrive(s, caller))
  {
    forall k | k in s.cache ensures Earned(Arrive(s, caller).callers, k) {
      EarnedStays(s.callers, Arrive(s, caller).callers, k);
    }
  }

  lemma CreationKeepsInv(s: System, i: nat, handle: string)
    requires Inv(s)
    ensures Inv(Step(s, CreateHandle(i, handle)))
  {
    if i < |s.callers| && MayCreate(s.callers[i]) {
      assert CallerFits(s.cache, s.callers[i]);
      FittingIsCanonical(s.callers[i].key, s.callers[i].phase.backend);
    }
  }

  /** In every state a step keeps the invariant, replaces no cached backend, and leaves every caller
      with its key. */
  lemma StepKeepsInv(s: System, a: Action)
    requires Inv(s)
    ensures Inv(Step(s, a)) && Grows(s.cache, Step(s, a).cache) && CallersStay(s.callers, Step(s, a).callers)
  {
    match a
    case ArriveByTarget(target) =>
      ResolvedIsCanonical(target);
      ArrivalKeepsInv(s, Caller(ResolveTargetId(target), true, Probing));
    case ArriveByHandle(handle) =>
      if FindRoute(s.registry, handle).Some? {
        ArrivalKeepsInv(s, Caller(FindRoute(s.registry, handle).value.targetId, false, Probing));
      } else {
        ArrivalKeepsInv(s, Caller("", false, Failed(HandleNotFound)));
      }
    case Probe(i) =>
      if i < |s.callers| && s.callers[i].phase.Probing? {
        assert CallerFits(s.cache, s.callers[i]);
        PhaseKeepsInv(s, i, Step(s, a).callers[i].phase, s.cache);
      }
    case Build(i, fails) =>
      if i < |s.callers| && s.callers[i].phase.Missed? {
        assert CallerFits(s.cache, s.callers[i]);
        PhaseKeepsInv(s, i, Step(s, a).callers[i].phase, s.cache);
      }
    case Insert(i) =>
      if i < |s.callers| && s.callers[i].phase.Built? {
        assert CallerFits(s.cache, s.callers[i]);
        PhaseKeepsInv(s, i, Step(s, a).callers[i].phase, Step(s, a).cache);
      }
    case CreateHandle(i, handle) => CreationKeepsInv(s, i, handle);
    case RemoveHandle(handle) => RemovedRoutesFit(s.cache, s.registry, handle);
  }

  lemma {:induction false} RunKeepsInv(s: System, actions: seq<Action>)
    requires Inv(s)
    ensures Inv(Run(s, actions)) && Grows(s.cache, Run(s, actions).cache)
    ensures CallersStay(s.callers, Run(s, actions).callers)
    decreases |actions|
  {
    if actions != [] {
      StepKeepsInv(s, actions[0]);
      RunKeepsInv(Step(s, actions[0]), actions[1..]);
    }
  }

  lemma StartedInv(registry: seq<Route>)
    requires AllPersisted(registry)
    ensures Inv(Started(registry))
  {
  }

  // ---------------------------------------------------------------- what callers can rely on

  /** From every registry and in every interleaving: a stored backend is never replaced, and any two
      callers that finish with one key, at whatever times, hold the same instance, which is the
      stored one. Its target id is the key exactly when the key is canonical. */
  lemma CallersAgree(registry: seq<Route>, actions: seq<Action>, later: seq<Action>, i: nat, j: nat)
    requires AllPersisted(registry)
    requires var s := Run(Started(registry), actions); i < |s.callers| && s.callers[i].phase.Done?
    requires var t := Run(Run(Started(registry), actions), later); j < |t.callers| && t.callers[j].phase.Done?
    requires Run(Started(registry), actions).callers[i].key == Run(Run(Started(registry), actions), later).callers[j].key
    ensures var s := Run(Started(registry), actions);
            var t := Run(s, later);
            && s.callers[i].phase.backend == t.callers[j].phase.backend
            && t.callers[j].key in t.cache && t.cache[t.callers[j].key] == t.callers[j].phase.backend
            && (t.callers[j].phase.backend.targetId == t.callers[j].key <==> IsCanonical(t.callers[j].key))
  {
    StartedInv(registry);
    var s := Run(Started(registry), actions);
    var t := Run(s, later);
    RunKeepsInv(Started(registry), actions);
    RunKeepsInv(s, later);
    assert CallerFits(s.cache, s.callers[i]) && CallerFits(t.cache, t.callers[j]);
    FittingIsCanonical(t.callers[j].key, t.callers[j].phase.backend);
  }

  /** Whoever finishes for a handle, made in this run or persisted before it, holds the one instance
      cached under the handle's target id; the maker of the handle when it was made in this run. */
  lemma HandleRoutesHome(registry: seq<Route>, actions: seq<Action>, handle: string, later: seq<Action>)
    requires AllPersisted(registry)
    requires FindRoute(Run(Started(registry), actions).registry, handle).Some?
    ensures var s := Run(Started(registry), actions);
            var route := FindRoute(s.registry, handle).value;
            var n := |s.callers|;
            var t := Run(Step(s, ArriveByHandle(handle)), later);
            && n < |t.callers| && t.callers[n].key == route.targetId
            && (t.callers[n].phase.Done? ==>
                  && route.targetId in t.cache
                  && t.callers[n].phase.backend == t.cache[route.targetId]
                  && Fitting(route.targetId, t.callers[n].phase.backend)
                  && (route.owner.Some? ==> t.callers[n].phase.backend == route.owner.value))
  {
    StartedInv(registry);
    RunKeepsInv(Started(registry), actions);
    var s := Run(Started(registry), actions);
    FoundRouteIsStored(s.registry, handle);
    var route := FindRoute(s.registry, handle).value;
    var k :| 0 <= k < |s.registry| && s.registry[k] == route;
    assert RouteFits(s.cache, s.registry[k]);
    var a := Step(s, ArriveByHandle(handle));
    StepKeepsInv(s, ArriveByHandle(handle));
    RunKeepsInv(a, later);
    var n := |s.callers|;
    assert a.callers[n].key == route.targetId;
    assert CallerFits(Run(a, later).cache, Run(a, later).callers[n]);
  }

  /** A caller that arrives for a handle finishes at its first probe exactly when the handle's target
      is `local` or somebody finished with it before in this run of the daemon. That is so for every
      handle made in this run; for one of an earlier run it need not be, and the caller then goes
      on to build. */
  lemma HandleIsCachedExactly(registry: seq<Route>, actions: seq<Action>, handle: string)
    requires AllPersisted(registry)
    requires FindRoute(Run(Started(registry), actions).registry, handle).Some?
    ensures var s := Run(Started(registry), actions);
            var route := FindRoute(s.registry, handle).value;
            var n := |s.callers|;
            var t := Step(Step(s, ArriveByHandle(handle)), Probe(n));
            && n < |t.callers|
            && (t.callers[n].phase.Done? || t.callers[n].phase.Missed?)
            && (t.callers[n].phase.Done? <==> Earned(s.callers, route.targetId))
            && (route.owner.Some? ==> t.callers[n].phase == Done(route.owner.value))
  {
    StartedInv(registry);
    RunKeepsInv(Started(registry), actions);
    var s := Run(Started(registry), actions);
    FoundRouteIsStored(s.registry, handle);
    var route := FindRoute(s.registry, handle).value;
    var k :| 0 <= k < |s.registry| && s.registry[k] == route;
    assert RouteFits(s.cache, s.registry[k]);
    assert route.targetId in s.cache ==> Earned(s.callers, route.targetId);
    if Earned(s.callers, route.targetId) && route.targetId != "local" {
      var i :| 0 <= i < |s.callers| && FinishedWith(s.callers[i], route.targetId);
      assert CallerFits(s.cache, s.callers[i]);
    }
  }

  /** After a restart two callers for one persisted remote handle may both miss and both build. The
      first to insert decides: both end with its instance. */
  lemma RestartRace(handle: string, id: string)
    requires IsCanonical(id) && id != "local"
    ensures var s := Started([Route(handle, id, None)]);
            var missed := Run(s, [ArriveByHandle(handle), ArriveByHandle(handle), Probe(0), Probe(1)]);
            var t := Run(missed, [Build(0, false), Build(1, false), Insert(1), Insert(0)]);
            && |missed.callers| == 2 && missed.callers[0].phase == missed.callers[1].phase == Missed
            && |t.callers| == 2
            && t.callers[0].phase == t.callers[1].phase == Done(Backend(2, id))
            && t.cache == map["local" := Backend(0, "local"), id := Backend(2, id)]
  {
    FactoryAgreesWithKey(id);
    var s := Started([Route(handle, id, None)]);
    var c := Caller(id, false, Probing);
    var s2 := Arrive(Arrive(s, c), c);
    RunFour(s, ArriveByHandle(handle), ArriveByHandle(handle), Probe(0), Probe(1));
    assert FindRoute(s.registry, handle) == Some(s.registry[0]);
    assert Step(Step(s, ArriveByHandle(handle)), ArriveByHandle(handle)) == s2;
    var missed := Step(Step(s2, Probe(0)), Probe(1));
    RunFour(missed, Build(0, false), Build(1, false), Insert(1), Insert(0));
  }

  ghost predicate AllCanonical(s: System) {
    && (forall i :: 0 <= i < |s.registry| ==> IsCanonical(s.registry[i].targetId))
    && (forall i :: 0 <= i < |s.callers| ==> s.callers[i].phase.Failed? || IsCanonical(s.callers[i].key))
  }

  lemma {:induction false} RemovedRoutesStored(registry: seq<Route>, handle: string)
    ensures forall i :: 0 <= i < |RemoveRoute(registry, handle)| ==> RemoveRoute(registry, handle)[i] in registry
  {
    if registry != [] {
      RemovedRoutesStored(registry[1..], handle);
    }
  }

  lemma StepKeepsCanonical(s: System, a: Action)
    requires Inv(s) && AllCanonical(s)
    ensures AllCanonical(Step(s, a))
  {
    match a
    case ArriveByTarget(target) => ResolvedIsCanonical(target);
    case ArriveByHandle(handle) =>
      if FindRoute(s.registry, handle).Some? { FoundRouteIsStored(s.registry, handle); }
    case CreateHandle(i, handle) =>
      if i < |s.callers| && MayCreate(s.callers[i]) {
        assert CallerFits(s.cache, s.callers[i]);
        FittingIsCanonical(s.callers[i].key, s.callers[i].phase.backend);
      }
    case RemoveHandle(handle) => RemovedRoutesStored(s.registry, handle);
    case _ =>
  }

  lemma {:induction false} RunKeepsCanonical(s: System, actions: seq<Action>)
    requires Inv(s) && AllCanonical(s)
    ensures AllCanonical(Run(s, actions))
    decreases |actions|
  {
    if actions != [] {
      StepKeepsInv(s, actions[0]);
      StepKeepsCanonical(s, actions[0]);
      RunKeepsCanonical(Step(s, actions[0]), actions[1..]);
    }
  }

  /** From a registry of canonical ids, as the daemon writes them, there is one service to a target:
      callers of one key and callers whose services have one target id are the same, and they
      hold the same instance. */
  lemma OneServicePerTarget(registry: seq<Route>, actions: seq<Action>, i: nat, j: nat)
    requires AllPersisted(registry) && AllCanonical(Started(registry))
    requires var s := Run(Started(registry), actions);
             i < |s.callers| && s.callers[i].phase.Done? && j < |s.callers| && s.callers[j].phase.Done?
    ensures var s := Run(Started(registry), actions);
            var b, c := s.callers[i].phase.backend, s.callers[j].phase.backend;
            && b.targetId == s.callers[i].key && c.targetId == s.callers[j].key
            && (b.targetId == c.targetId <==> b == c)
            && AllCanonical(s)
  {
    StartedInv(registry);
    RunKeepsInv(Started(registry), actions);
    RunKeepsCanonical(Started(registry), actions);
    var s := Run(Started(registry), actions);
    assert CallerFits(s.cache, s.callers[i]) && CallerFits(s.cache, s.callers[j]);
    FittingIsCanonical(s.callers[i].key, s.callers[i].phase.backend);
    FittingIsCanonical(s.callers[j].key, s.callers[j].phase.backend);
  }

  lemma MissBuilds(s: System, i: nat)
    requires i < |s.callers| && s.callers[i].phase.Probing?
    requires s.callers[i].key !in s.cache && FactoryTargetId(s.callers[i].key).Some?
    ensures var t := Step(Step(Step(s, Probe(i)), Build(i, false)), Insert(i));
            var made := Backend(s.built, FactoryTargetId(s.callers[i].key).value);
            && t.cache == s.cache[s.callers[i].key := made] && t.built == s.built + 1
            && t.callers == s.callers[i := s.callers[i].(phase := Done(made))]
  {
  }

  /** A persisted id that is not canonical, which the daemon itself never writes, splits a target:
      a caller for the handle and one for the target end with two instances of one target id. */
  lemma StrayIdSplits(handle: string, id: string)
    requires FactoryTargetId(id).Some? && !IsCanonical(id)
    ensures var s := Started([Route(handle, id, None)]);
            var a := Run(s, [ArriveByHandle(handle), Probe(0), Build(0, false), Insert(0)]);
            var t := Run(a, [ArriveByTarget(FactoryTargetId(id)), Probe(1), Build(1, false), Insert(1)]);
            && |t.callers| == 2 && t.callers[0].phase.Done? && t.callers[1].phase.Done?
            && t.callers[0].phase.backend != t.callers[1].phase.backend
            && t.callers[0].phase.backend.targetId == t.callers[1].phase.backend.targetId
  {
    var target := FactoryTargetId(id);
    FactoryIsCanonical(id);
    FactoryAgreesWithKey(target.value);
    var s := Started([Route(handle, id, None)]);
    assert FindRoute(s.registry, handle) == Some(s.registry[0]);
    RunFour(s, ArriveByHandle(handle), Probe(0), Build(0, false), Insert(0));
    var s1 := Arrive(s, Caller(id, false, Probing));
    MissBuilds(s1, 0);
    var a := Step(Step(Step(s1, Probe(0)), Build(0, false)), Insert(0));
    RunFour(a, ArriveByTarget(target), Probe(1), Build(1, false), Insert(1));
    MissBuilds(Arrive(a, Caller(target.value, true, Probing)), 1);
  }

  lemma RunFour(s: System, a: Action, b: Action, c: Action, d: Action)
    ensures Run(s, [a, b, c, d]) == Step(Step(Step(Step(s, a), b), c), d)
  {
    assert [a, b, c, d][1..] == [b, c, d] && [b, c, d][1..] == [c, d] && [c, d][1..] == [d] && [d][1..] == [];
    assert Run(Step(Step(Step(s, a), b), c), [d]) == Step(Step(Step(Step(s, a), b), c), d);
    assert Run(Step(Step(s, a), b), [c, d]) == Run(Step(Step(Step(s, a), b), c), [d]);
    assert Run(Step(s, a), [b, c, d]) == Run(Step(Step(s, a), b), [c, d]);
  }

  // ---------------------------------------------------------------- the router object

  /** What an undisturbed call leaves in the cache. */
  function CacheAfter(cache: map<string, Backend>, built: nat, key: string, fails: bool): map<string, Backend> {
    if key in cache then cache
    else
      match BuildPhase(key, built, fails)
      case Built(backend) => cache[key := backend]
      case _ => cache
  }

  class TargetRouter {
    var backends: map<string, Backend>
    var built: nat

    constructor ()
      ensures backends == Started([]).cache && built == Started([]).built
    {
      backends, built := map["local" := Backend(0, "local")], 1;
    }

    /** The factory: the n-th call builds the n-th instance, unless it fails. */
    method Factory(targetId: string, fails: bool) returns (r: Result<Option<Backend>, RouteError>)
      modifies this`built
      ensures built == old(built) + 1
      ensures match BuildPhase(targetId, old(built), fails)
              case Built(backend) => r == Ok(Some(backend))
              case Failed(TargetNotFound) => r == Ok(None)
              case _ => r == Err(FactoryFailed)
    {
      var serial := built;
      built := built + 1;
      var id := FactoryTargetId(targetId);
      if id.None? {
        return Ok(None);
      }
      if fails {
        return Err(FactoryFailed);
      }
      r := Ok(Some(Backend(serial, id.value)));
    }

    method BackendForTargetId(targetId: string, fails: bool) returns (r: Result<Backend, RouteError>)
      modifies this
      ensures backends == CacheAfter(old(backends), old(built), targetId, fails)
      ensures targetId in old(backends) ==> built == old(built)
      ensures r.Ok? <==> targetId in backends
      ensures r.Ok? ==> r.value == backends[targetId]
      ensures r.Err? ==> r.error == if FactoryTargetId(targetId).None? then TargetNotFound else FactoryFailed
    {
      if targetId in backends {
        return Ok(backends[targetId]);
      }
      var made := Factory(targetId, fails);
      if made.Err? {
        return Err(made.error);
      }
      if made.value.Some? {
        backends := InsertIfAbsent(backends, targetId, made.value.value);
        return Ok(backends[targetId]);
      }
      r := Err(TargetNotFound);
    }

    method BackendForTarget(target: Option<string>, fails: bool) returns (r: Result<Backend, RouteError>)
      modifies this
      ensures backends == CacheAfter(old(backends), old(built), ResolveTargetId(target), fails)
      ensures r.Ok? <==> ResolveTargetId(target) in backends
      ensures r.Ok? ==> r.value == backends[ResolveTargetId(target)]
    {
      r := BackendForTargetId(ResolveTargetId(target), fails);
    }

    /** The registry is what the store holds at the moment of the call. */
    method BackendForHandle(registry: seq<Route>, handle: string, fails: bool) returns (r: Result<Backend, RouteError>)
      modifies this
      ensures match FindRoute(registry, handle)
              case None => r == Err(HandleNotFound) && backends == old(backends) && built == old(built)
              case Some(route) =>
                && backends == CacheAfter(old(backends), old(built), route.targetId, fails)
                && (r.Ok? <==> route.targetId in backends)
                && (r.Ok? ==> r.value == backends[route.targetId])
    {
      var i := 0;
      while i < |registry| && registry[i].handle != handle
        invariant 0 <= i <= |registry|
        invariant FindRoute(registry, handle) == FindRoute(registry[i..], handle)
      {
        assert registry[i..][1..] == registry[i + 1..];
        i := i + 1;
      }
      if i == |registry| {
        assert registry[i..] == [];
        return Err(HandleNotFound);
      }
      r := BackendForTargetId(registry[i].targetId, fails);
    }
  }

  /** The router object is the system with one caller who is not interrupted, whether it came for a
      target or for a handle, in whatever state the others are. */
  lemma UndisturbedCall(s: System, i: nat, fails: bool)
    requires i < |s.callers| && s.callers[i].phase.Probing?
    ensures var key := s.callers[i].key;
            var t := Run(s, [Probe(i), Build(i, fails), Insert(i)]);
            && t.cache == CacheAfter(s.cache, s.built, key, fails)
            && |t.callers| == |s.callers|
            && (t.callers[i].phase.Done? <==> key in t.cache)
            && (key in t.cache ==> t.callers[i].phase == Done(t.cache[key]))
            && forall k :: 0 <= k < |s.callers| && k != i ==> t.callers[k] == s.callers[k]
  {
    var s2 := Step(s, Probe(i));
    var s3 := Step(s2, Build(i, fails));
    var as3 := [Probe(i), Build(i, fails), Insert(i)];
    assert as3[1..] == [Build(i, fails), Insert(i)];
    assert as3[1..][1..] == [Insert(i)];
    assert [Insert(i)][1..] == [];
    assert Run(s3, [Insert(i)]) == Step(s3, Insert(i));
    assert Run(s2, [Build(i, fails), Insert(i)]) == Run(s3, [Insert(i)]);
    assert Run(s, as3) == Step(s3, Insert(i));
  }
}
