/** The daemon as a client sees it: requests served one after the other. */
module Daemon {
  import opened Lifecycle
  import opened Runs
  import opened TerminalServices

  method Serve(service: TerminalService, request: Request)
    modifies service.world
    ensures service.world.Now() == Apply(service.Self(), old(service.world.Now()), request)
  {
    match request
    case SpawnPane(spawn) => var _ := service.Spawn(spawn);
    case AttachPane(session, intent, alias) => var _ := service.Takeover(session, intent, alias);
    case CapturePane(capture) => var _ := service.Capture(capture);
    case SendText(send) => var _ := service.Send(send);
    case ReplaceLineIn(h, command, interrupt) => var _ := service.Replace(h, command, interrupt);
    case WaitFor(h, idleMs, timeoutMs) => var _ := service.Wait(h, idleMs, timeoutMs);
    case CloseHandle(h, force) => var _ := service.Close(h, force);
    case ListAll(filter) => var _ := service.List(filter);
    case CleanUp(cleanup) => var _ := service.Cleanup(cleanup);
    case Revalidate => var _ := service.RevalidateAll();
    case Pass(ms) => service.world.Pause(ms);
  }

  /** Services over one world make it run as `Runs` says, so every theorem about runs is one about
      them. */
  method ServeAll(env: Env, world: World, events: seq<Event>)
    modifies world
    ensures world.Now() == Run(env, old(world.Now()), events)
  {
    var i := 0;
    while i < |events|
      invariant 0 <= i <= |events|
      invariant Run(env, world.Now(), events[i..]) == Run(env, old(world.Now()), events)
    {
      assert events[i..][1..] == events[i + 1..];
      var service := new TerminalService(env, events[i].targetId, events[i].backend, world);
      Serve(service, events[i].request);
      i := i + 1;
    }
  }
}
