/** What the daemon persists about a pane handle: its binding and its observation. */
module Entities {
  import opened Text
  import opened Targets

  datatype ErrorCode =
    | InvalidArgument
    | HandleNotFound
    | SelectorNotUnique
    | TargetNotFound
    | TargetStale
    | SpawnFailed
    | AttachFailed
    | SendFailed
    | WaitTimeout
    | WaitFailed
    | CaptureFailed
    | CloseFailed
    | ZjctlUnavailable
    | PluginNotReady
    | ProtocolVersionMismatch

  datatype Source = Spawned | Attached

  datatype Status = Ready | Busy | Stale | Closed

  datatype Binding = Binding(
    targetId: string,
    alias: Option<string>,
    session: string,
    tabName: Option<string>,
    selector: string,
    paneId: Option<string>,
    cwd: Option<string>,
    launchCommand: Option<string>,
    source: Source,
    status: Status,
    createdAt: nat,
    updatedAt: nat)

  predicate IsActive(b: Binding) { b.status.Ready? || b.status.Busy? }

  predicate IsUnresolved(b: Binding) { b.source.Spawned? && b.paneId.None? }

  predicate SupportsMarkers(b: Binding) { IsShell(ShellName(b.launchCommand)) }

  datatype Snapshot = Snapshot(content: string, capturedAt: nat, truncated: bool)

  /** What a spawn leaves for finding its pane later. */
  datatype SpawnRecord = SpawnRecord(
    beforeIds: seq<string>,
    target: Option<SpawnTarget>,
    tabName: Option<string>,
    title: Option<string>,
    command: Option<string>,
    launchedAt: Option<nat>)

  datatype Observation = Observation(
    lastContent: Option<string>,
    lastHash: Option<string>,
    lastCaptureAt: Option<nat>,
    boundaryContent: Option<string>,
    boundaryHash: Option<string>,
    boundaryAt: Option<nat>,
    interactionId: Option<string>,
    interactionStartedAt: Option<nat>,
    interactionCompletedAt: Option<nat>,
    interactionExitCode: Option<int>,
    wrapperHash: Option<string>,
    spawn: SpawnRecord)
  {
    function WithSnapshot(content: string, hash: string, now: nat): Observation {
      this.(lastContent := Some(content), lastHash := Some(hash), lastCaptureAt := Some(now))
    }

    function WithBoundary(): Observation {
      this.(boundaryContent := lastContent, boundaryHash := lastHash, boundaryAt := lastCaptureAt)
    }

    function WithInteraction(id: string, now: nat): Observation {
      this.(interactionId := Some(id), interactionStartedAt := Some(now), interactionCompletedAt := None,
            interactionExitCode := None)
    }

    function Completed(exitCode: Option<int>, now: nat): Observation {
      this.(interactionCompletedAt := Some(now), interactionExitCode := exitCode)
    }
  }

  const BLANK := Observation(None, None, None, None, None, None, None, None, None, None, None,
                             SpawnRecord([], None, None, None, None, None))

  /** The working copy an operation updates before it writes the observations back. */
  class TerminalObservation {
    var lastContent: Option<string>
    var lastHash: Option<string>
    var lastCaptureAt: Option<nat>
    var boundaryContent: Option<string>
    var boundaryHash: Option<string>
    var boundaryAt: Option<nat>
    var interactionId: Option<string>
    var interactionStartedAt: Option<nat>
    var interactionCompletedAt: Option<nat>
    var interactionExitCode: Option<int>
    var wrapperHash: Option<string>
    var spawn: SpawnRecord

    function Value(): Observation
      reads this
    {
      Observation(lastContent, lastHash, lastCaptureAt, boundaryContent, boundaryHash, boundaryAt, interactionId,
                  interactionStartedAt, interactionCompletedAt, interactionExitCode, wrapperHash, spawn)
    }

    constructor (o: Observation)
      ensures Value() == o
    {
      lastContent, lastHash, lastCaptureAt := o.lastContent, o.lastHash, o.lastCaptureAt;
      boundaryContent, boundaryHash, boundaryAt := o.boundaryContent, o.boundaryHash, o.boundaryAt;
      interactionId, interactionStartedAt := o.interactionId, o.interactionStartedAt;
      interactionCompletedAt, interactionExitCode := o.interactionCompletedAt, o.interactionExitCode;
      wrapperHash, spawn := o.wrapperHash, o.spawn;
    }

    method UpdateFullSnapshot(content: string, hash: string, now: nat)
      modifies this
      ensures Value() == old(Value()).WithSnapshot(content, hash, now)
    {
      lastContent := Some(content);
      lastHash := Some(hash);
      lastCaptureAt := Some(now);
    }

    method ResetCommandBoundary()
      modifies this
      ensures Value() == old(Value()).WithBoundary()
    {
      boundaryContent := lastContent;
      boundaryHash := lastHash;
      boundaryAt := lastCaptureAt;
    }

    method StartInteraction(id: string, now: nat)
      modifies this
      ensures Value() == old(Value()).WithInteraction(id, now)
    {
      interactionId := Some(id);
      interactionStartedAt := Some(now);
      interactionCompletedAt := None;
      interactionExitCode := None;
    }

    method CompleteInteraction(exitCode: Option<int>, now: nat)
      modifies this
      ensures Value() == old(Value()).Completed(exitCode, now)
    {
      interactionCompletedAt := Some(now);
      interactionExitCode := exitCode;
    }

    method RememberWrapperHash(hash: string)
      modifies this
      ensures Value() == old(Value()).(wrapperHash := Some(hash))
    {
      wrapperHash := Some(hash);
    }

    method ClearWrapperHash()
      modifies this
      ensures Value() == old(Value()).(wrapperHash := None)
    {
      wrapperHash := None;
    }

    method SetSpawnHints(beforeIds: seq<string>, target: SpawnTarget, tabName: Option<string>,
                         title: Option<string>, command: Option<string>, now: nat)
      modifies this
      ensures Value()
              == old(Value()).(spawn := SpawnRecord(beforeIds, Some(target), tabName, title, command, Some(now)))
    {
      spawn := SpawnRecord(beforeIds, Some(target), tabName, title, command, Some(now));
    }
  }
}
