/**
 * The server lifecycle manager (Services/FtpServerManager.cs).
 *
 * The first half describes each public operation as a pure transition on
 * an abstract State: the status, the error message, the settings of
 * CurrentConfig, whether the host and service-provider slots are filled,
 * and whether the semaphore has been disposed. A transition also yields the
 * snapshots seen by OnStatusChanged subscribers, in order, and the
 * exception (if any) that escapes the call.
 *
 * The second half is the class, whose methods change their fields step by
 * step as the source does and are proved to perform those transitions.
 *
 * The FTP engine, the directory check and the disposal calls are abstracted
 * into outcomes supplied by the caller: each step either succeeds or throws
 * an exception carrying a message. The semaphore serialises every call, so
 * each operation is one atomic step.
 */
module ServerManager {
  import opened Wrappers
  import opened ServerStatus
  import opened FtpConfig

  const AlreadyRunningMessage: string := "FTP server is already running. Stop it first."

  /** What one external step does: return normally, or throw with a message. */
  datatype StepOutcome = Succeeds | Throws(message: string)

  /** The outcomes of the two disposal steps of a teardown. */
  datatype CleanupSteps = CleanupSteps(hostStop: StepOutcome, providerDispose: StepOutcome)

  /** The outcomes of the steps StartAsync performs, in order, and of the teardown after a failure. */
  datatype StartSteps = StartSteps(
    directoryExists: bool,
    createDirectory: StepOutcome,
    buildProvider: StepOutcome,
    resolveHost: StepOutcome,
    hostStart: StepOutcome,
    cleanup: CleanupSteps)

  /** An exception that leaves a public operation. */
  datatype Escape = ObjectDisposed | DisposeFailed(message: string)

  datatype State = State(
    status: FtpServerStatus,
    errorMessage: Option<string>,
    config: Option<ConfigValue>,
    hasHost: bool,
    hasProvider: bool,
    lockDisposed: bool)

  /** A freshly constructed manager. */
  const Initial: State := State(Stopped, None, None, false, false, false)

  datatype Transition = Transition(post: State, notified: seq<Snapshot>, escaped: Option<Escape>)

  datatype CleanupResult = CleanupResult(post: State, thrown: Option<string>)

  function SnapshotOf(s: State): Snapshot
  {
    Snapshot(s.status, s.errorMessage)
  }

  // ---------------------------------------------------------------------------
  // Invariants
  // ---------------------------------------------------------------------------

  /**
   * What holds between calls, whatever has happened: no call is in progress,
   * so the status is never Starting or Stopping; the message is present
   * exactly in Error; a stopped server holds no configuration and no
   * resources; a running one has its configuration; after an error the host
   * slot is empty; a disposed manager holds no resources.
   */
  predicate Consistent(s: State)
  {
    (s.status == Stopped || s.status == Running || s.status == Error)
    && MessageMatchesStatus(s.status, s.errorMessage)
    && (s.status == Stopped ==> s.config.None? && !s.hasHost && !s.hasProvider)
    && (s.status == Running ==> s.config.Some? && (s.hasHost ==> s.hasProvider) && (s.lockDisposed || s.hasProvider))
    && (s.status == Error ==> !s.hasHost)
    && (s.lockDisposed ==> !s.hasHost && !s.hasProvider)
  }

  /**
   * What holds as long as Dispose has not been called: a running server
   * holds both its host and its service provider.
   */
  predicate Live(s: State)
  {
    Consistent(s) && !s.lockDisposed && (s.status == Running ==> s.hasHost && s.hasProvider)
  }

  // ---------------------------------------------------------------------------
  // The private steps
  // ---------------------------------------------------------------------------

  /** UpdateStatus: write the status and the message, then notify. Nothing else changes. */
  function AfterUpdate(s: State, status: FtpServerStatus, errorMessage: Option<string>): (r: State)
    ensures SnapshotOf(r) == Snapshot(status, errorMessage)
    ensures r.config == s.config && r.hasHost == s.hasHost && r.hasProvider == s.hasProvider
    ensures r.lockDisposed == s.lockDisposed
  {
    s.(status := status, errorMessage := errorMessage)
  }

  /** EnsureDirectoryExists: nothing to do when the directory exists; otherwise creating it may throw. */
  function EnsureDirectoryExists(directoryExists: bool, createDirectory: StepOutcome): (r: StepOutcome)
    ensures directoryExists ==> r == Succeeds
    ensures !directoryExists ==> r == createDirectory
  {
    if directoryExists then Succeeds else createDirectory
  }

  /**
   * CleanupAsync: stop the host, swallowing any exception, and clear its
   * slot; then dispose the provider and clear its slot. Only the provider's
   * disposal can throw, and then its slot stays filled.
   */
  function AfterCleanup(s: State, steps: CleanupSteps): (r: CleanupResult)
    ensures !r.post.hasHost
    ensures r.post.hasProvider <==> r.thrown.Some?
    ensures r.thrown.Some? <==> s.hasProvider && steps.providerDispose.Throws?
    ensures r.thrown.Some? ==> r.thrown.value == steps.providerDispose.message
    ensures r.post.(hasHost := s.hasHost, hasProvider := s.hasProvider) == s
    ensures !s.hasHost && !s.hasProvider ==> r == CleanupResult(s, None)
  {
    var afterHost := if s.hasHost then s.(hasHost := false) else s;
    if afterHost.hasProvider then
      match steps.providerDispose
      case Succeeds => CleanupResult(afterHost.(hasProvider := false), None)
      case Throws(m) => CleanupResult(afterHost, Some(m))
    else CleanupResult(afterHost, None)
  }

  /** The host's stop outcome changes nothing: its exception is swallowed. */
  lemma CleanupIgnoresHostStop(s: State, a: StepOutcome, b: StepOutcome, providerDispose: StepOutcome)
    ensures AfterCleanup(s, CleanupSteps(a, providerDispose)) == AfterCleanup(s, CleanupSteps(b, providerDispose))
  {
  }

  /** Cleaning up twice in a row, the second time with successful disposal, leaves nothing more to release. */
  lemma CleanupIsIdempotent(s: State, first: CleanupSteps, second: CleanupSteps)
    requires AfterCleanup(s, first).thrown.None?
    ensures AfterCleanup(AfterCleanup(s, first).post, second) == AfterCleanup(s, first)
  {
  }

  // ---------------------------------------------------------------------------
  // The public operations
  // ---------------------------------------------------------------------------

  /**
   * Where the try block of StartAsync stops: the state reached, the
   * notifications fired so far and the message of the exception that ended
   * it early, if any.
   */
  datatype TryOutcome = TryOutcome(at: State, notified: seq<Snapshot>, failure: Option<string>)

  /**
   * The try block of StartAsync: throw on a running server; otherwise
   * Starting, then the directory, the provider, the host and its start, and
   * on success the configuration and Running.
   */
  function StartTry(s: State, config: ConfigValue, steps: StartSteps): (r: TryOutcome)
    ensures s.status == Running ==> r == TryOutcome(s, [], Some(AlreadyRunningMessage))
    ensures s.status != Running ==> r.failure == StartFailure(steps)
    ensures r.failure.None? ==>
      r.at == State(Running, None, Some(config), true, true, s.lockDisposed)
      && r.notified == [Snapshot(Starting, None), Snapshot(Running, None)]
    ensures r.failure.Some? && s.status != Running ==>
      && r.notified == [Snapshot(Starting, None)]
      && r.at.config == s.config && r.at.lockDisposed == s.lockDisposed
      && (r.at.hasProvider <==> s.hasProvider || BuildsProvider(steps))
  {
    if s.status == Running then TryOutcome(s, [], Some(AlreadyRunningMessage))
    else
      var starting := AfterUpdate(s, Starting, None);
      var notified := [SnapshotOf(starting)];
      var dir := EnsureDirectoryExists(steps.directoryExists, steps.createDirectory);
      if dir.Throws? then TryOutcome(starting, notified, Some(dir.message))
      else if steps.buildProvider.Throws? then TryOutcome(starting, notified, Some(steps.buildProvider.message))
      else
        var built := starting.(hasProvider := true);
        if steps.resolveHost.Throws? then TryOutcome(built, notified, Some(steps.resolveHost.message))
        else
          var resolved := built.(hasHost := true);
          if steps.hostStart.Throws? then TryOutcome(resolved, notified, Some(steps.hostStart.message))
          else
            var running := AfterUpdate(resolved.(config := Some(config)), Running, None);
            TryOutcome(running, notified + [SnapshotOf(running)], None)
  }

  /**
   * The catch block of StartAsync: report the error, notify, tear down. The
   * host is always released; the exception of a throwing container disposal
   * escapes, and the container then stays.
   */
  function StartFailed(at: State, notified: seq<Snapshot>, message: string, cleanup: CleanupSteps): (t: Transition)
    ensures t.post.status == Error && t.post.errorMessage == Some(message)
    ensures t.notified == notified + [Snapshot(Error, Some(message))]
    ensures t.post.config == at.config && t.post.lockDisposed == at.lockDisposed && !t.post.hasHost
    ensures t.escaped.Some? <==> at.hasProvider && cleanup.providerDispose.Throws?
    ensures t.escaped.Some? ==> t.escaped == Some(DisposeFailed(cleanup.providerDispose.message))
    ensures t.post.hasProvider <==> t.escaped.Some?
  {
    var failed := AfterUpdate(at, Error, Some(message));
    var c := AfterCleanup(failed, cleanup);
    Transition(c.post, notified + [SnapshotOf(failed)],
      if c.thrown.Some? then Some(DisposeFailed(c.thrown.value)) else None)
  }

  /** Whether the try block of a start (on a server that is not running) gets as far as building the container. */
  predicate BuildsProvider(steps: StartSteps)
  {
    EnsureDirectoryExists(steps.directoryExists, steps.createDirectory).Succeeds? && steps.buildProvider.Succeeds?
  }

  /** The message of the first step of a start (after entering Starting) that throws, if any. */
  function StartFailure(steps: StartSteps): Option<string>
  {
    var dir := EnsureDirectoryExists(steps.directoryExists, steps.createDirectory);
    if dir.Throws? then Some(dir.message)
    else if steps.buildProvider.Throws? then Some(steps.buildProvider.message)
    else if steps.resolveHost.Throws? then Some(steps.resolveHost.message)
    else if steps.hostStart.Throws? then Some(steps.hostStart.message)
    else None
  }

  /**
   * StartAsync. Waiting on a disposed semaphore throws before anything
   * happens. The "already running" exception is thrown inside the try, so
   * the catch reports it as an Error and tears the running server down.
   * Otherwise: Starting, then the directory, the provider, the host and its
   * start; any of them throwing ends in Error with its message and a
   * teardown; success stores the configuration and ends in Running.
   */
  function AfterStart(s: State, config: ConfigValue, steps: StartSteps): (t: Transition)
    ensures s.lockDisposed ==> t == Transition(s, [], Some(ObjectDisposed))
    ensures !s.lockDisposed && s.status == Running ==>
      && t.post.status == Error && t.post.errorMessage == Some(AlreadyRunningMessage)
      && t.post.config == s.config && !t.post.hasHost && !t.post.lockDisposed
      && (t.post.hasProvider <==> s.hasProvider && steps.cleanup.providerDispose.Throws?)
      && t.notified == [Snapshot(Error, Some(AlreadyRunningMessage))]
    ensures !s.lockDisposed && s.status != Running && StartFailure(steps).None? ==>
      t == Transition(State(Running, None, Some(config), true, true, false),
                      [Snapshot(Starting, None), Snapshot(Running, None)], None)
    ensures !s.lockDisposed && s.status != Running && StartFailure(steps).Some? ==>
      && t.post.status == Error && t.post.errorMessage == StartFailure(steps)
      && t.post.config == s.config && !t.post.hasHost && !t.post.lockDisposed
      && t.notified == [Snapshot(Starting, None), Snapshot(Error, StartFailure(steps))]
      && (t.escaped.Some? <==> (s.hasProvider || BuildsProvider(steps)) && steps.cleanup.providerDispose.Throws?)
      && (t.post.hasProvider <==> t.escaped.Some?)
    ensures !s.lockDisposed ==> (t.post.hasProvider && t.post.status == Error <==> t.escaped.Some?)
    ensures t.escaped.Some? && !s.lockDisposed ==>
      steps.cleanup.providerDispose.Throws? && t.escaped == Some(DisposeFailed(steps.cleanup.providerDispose.message))
    ensures Consistent(s) ==> Consistent(t.post)
    ensures Live(s) ==> Live(t.post)
  {
    if s.lockDisposed then Transition(s, [], Some(ObjectDisposed))
    else
      var r := StartTry(s, config, steps);
      if r.failure.Some? then StartFailed(r.at, r.notified, r.failure.value, steps.cleanup)
      else Transition(r.at, r.notified, None)
  }

  /**
   * StopAsync. Nothing happens unless the server is running. Otherwise:
   * Stopping, the teardown, and then Stopped with no configuration; if the
   * provider's disposal throws, the catch reports Error instead and the
   * configuration stays. Only a disposed semaphore makes it throw.
   */
  function AfterStop(s: State, steps: CleanupSteps): (t: Transition)
    ensures t.escaped.Some? <==> s.lockDisposed
    ensures t.escaped.Some? ==> t.escaped == Some(ObjectDisposed)
    ensures s.lockDisposed || s.status != Running ==> t.post == s && t.notified == []
    ensures !s.lockDisposed && s.status == Running && !(s.hasProvider && steps.providerDispose.Throws?) ==>
      && t.post == State(Stopped, None, None, false, false, false)
      && t.notified == [Snapshot(Stopping, None), Snapshot(Stopped, None)]
    ensures !s.lockDisposed && s.status == Running && s.hasProvider && steps.providerDispose.Throws? ==>
      && t.post == State(Error, Some(steps.providerDispose.message), s.config, false, true, false)
      && t.notified == [Snapshot(Stopping, None), Snapshot(Error, Some(steps.providerDispose.message))]
    ensures Consistent(s) ==> Consistent(t.post)
    ensures Live(s) ==> Live(t.post)
  {
    if s.lockDisposed then Transition(s, [], Some(ObjectDisposed))
    else if s.status != Running then Transition(s, [], None)
    else
      var stopping := AfterUpdate(s, Stopping, None);
      var c := AfterCleanup(stopping, steps);
      if c.thrown.Some? then
        var failed := AfterUpdate(c.post, Error, c.thrown);
        Transition(failed, [SnapshotOf(stopping), SnapshotOf(failed)], None)
      else
        var stopped := AfterUpdate(c.post.(config := None), Stopped, None);
        Transition(stopped, [SnapshotOf(stopping), SnapshotOf(stopped)], None)
  }

  /**
   * Dispose: stop the host, swallowing any exception, and clear its slot;
   * dispose the provider and clear its slot; dispose the semaphore. It takes
   * no lock, never touches the status and never notifies. If the provider's
   * disposal throws, the exception escapes before the provider slot is
   * cleared and before the semaphore is disposed.
   */
  function AfterDispose(s: State, steps: CleanupSteps): (t: Transition)
    ensures t.notified == []
    ensures t.post.status == s.status && t.post.errorMessage == s.errorMessage && t.post.config == s.config
    ensures !t.post.hasHost
    ensures t.escaped.Some? <==> s.hasProvider && steps.providerDispose.Throws?
    ensures t.escaped.Some? ==>
      t.escaped == Some(DisposeFailed(steps.providerDispose.message)) && t.post.hasProvider && t.post.lockDisposed == s.lockDisposed
    ensures t.escaped.None? ==> !t.post.hasProvider && t.post.lockDisposed
    ensures Consistent(s) ==> Consistent(t.post)
  {
    var afterHost := s.(hasHost := false);
    if afterHost.hasProvider && steps.providerDispose.Throws? then
      Transition(afterHost, [], Some(DisposeFailed(steps.providerDispose.message)))
    else
      Transition(afterHost.(hasProvider := false, lockDisposed := true), [], None)
  }

  // ---------------------------------------------------------------------------
  // Sequences of calls
  // ---------------------------------------------------------------------------

  /** One serialised call on the manager. */
  datatype Call =
    | StartCall(config: ConfigValue, steps: StartSteps)
    | StopCall(cleanup: CleanupSteps)
    | DisposeCall(cleanup: CleanupSteps)

  function Apply(s: State, call: Call): Transition
  {
    match call
    case StartCall(config, steps) => AfterStart(s, config, steps)
    case StopCall(cleanup) => AfterStop(s, cleanup)
    case DisposeCall(cleanup) => AfterDispose(s, cleanup)
  }

  /** The state after a sequence of calls and every notification they fired, in order. */
  function Run(s: State, calls: seq<Call>): (t: Transition)
    decreases |calls|
  {
    if calls == [] then Transition(s, [], None)
    else
      var first := Apply(s, calls[0]);
      var rest := Run(first.post, calls[1..]);
      Transition(rest.post, first.notified + rest.notified, rest.escaped)
  }

  predicate NoDispose(calls: seq<Call>)
  {
    forall i :: 0 <= i < |calls| ==> !calls[i].DisposeCall?
  }

  /** Every call keeps the manager consistent, from any consistent state, in any order. */
  lemma {:induction false} RunKeepsConsistent(s: State, calls: seq<Call>)
    requires Consistent(s)
    ensures Consistent(Run(s, calls).post)
    decreases |calls|
  {
    if calls != [] {
      RunKeepsConsistent(Apply(s, calls[0]).post, calls[1..]);
    }
  }

  /**
   * Until Dispose is called, a running server holds its host and its
   * provider; in particular this holds from the initial state on.
   */
  lemma {:induction false} RunWithoutDisposeStaysLive(s: State, calls: seq<Call>)
    requires Live(s) && NoDispose(calls)
    ensures Live(Run(s, calls).post)
    decreases |calls|
  {
    if calls != [] {
      assert !calls[0].DisposeCall?;
      RunWithoutDisposeStaysLive(Apply(s, calls[0]).post, calls[1..]);
    }
  }

  /** One call: its last notification shows the state it leaves; with none, status and message are unchanged. */
  lemma ApplyNotificationsEndWithState(s: State, call: Call)
    ensures Apply(s, call).notified == [] ==> SnapshotOf(Apply(s, call).post) == SnapshotOf(s)
    ensures Apply(s, call).notified != [] ==>
      Apply(s, call).notified[|Apply(s, call).notified| - 1] == SnapshotOf(Apply(s, call).post)
  {
    match call
    case StartCall(config, steps) =>
      var t := AfterStart(s, config, steps);
      if !s.lockDisposed && s.status != Running {
        var r := StartTry(s, config, steps);
        if r.failure.Some? {
          assert t == StartFailed(r.at, r.notified, r.failure.value, steps.cleanup);
        }
      }
    case StopCall(cleanup) =>
    case DisposeCall(cleanup) =>
  }

  /**
   * Every status write goes through UpdateStatus: the last notification
   * fired shows the final status and message, and if none fired they are
   * unchanged.
   */
  lemma {:induction false} RunNotificationsEndWithState(s: State, calls: seq<Call>)
    ensures Run(s, calls).notified == [] ==> SnapshotOf(Run(s, calls).post) == SnapshotOf(s)
    ensures Run(s, calls).notified != [] ==>
      Run(s, calls).notified[|Run(s, calls).notified| - 1] == SnapshotOf(Run(s, calls).post)
    decreases |calls|
  {
    if calls != [] {
      var first := Apply(s, calls[0]);
      var rest := Run(first.post, calls[1..]);
      ApplyNotificationsEndWithState(s, calls[0]);
      RunNotificationsEndWithState(first.post, calls[1..]);
      assert Run(s, calls) == Transition(rest.post, first.notified + rest.notified, rest.escaped);
    }
  }

  /** Start, Stop, Start with every step succeeding: back to the initial state, then the same start again. */
  lemma RestartRepeatsFirstStart(config: ConfigValue, steps: StartSteps, cleanup: CleanupSteps)
    requires StartFailure(steps).None? && cleanup.providerDispose == Succeeds
    ensures AfterStop(AfterStart(Initial, config, steps).post, cleanup).post == Initial
    ensures AfterStart(AfterStop(AfterStart(Initial, config, steps).post, cleanup).post, config, steps)
         == AfterStart(Initial, config, steps)
  {
  }

  /**
   * A second Start on a running server does not leave it running: it ends
   * in Error with the "already running" message, the host torn down and
   * the first configuration still recorded.
   */
  lemma StartTwiceFails(s: State, c1: ConfigValue, c2: ConfigValue, first: StartSteps, second: StartSteps)
    requires Live(s) && s.status != Running && StartFailure(first).None? && second.cleanup.providerDispose == Succeeds
    ensures var t := AfterStart(AfterStart(s, c1, first).post, c2, second);
      t.post == State(Error, Some(AlreadyRunningMessage), Some(c1), false, false, false)
      && t.escaped.None?
  {
  }

  // ---------------------------------------------------------------------------
  // The manager object
  // ---------------------------------------------------------------------------

  /** The FTP engine's host, an opaque resource. */
  class FtpServerHost {
    constructor ()
    {
    }
  }

  /** The dedicated dependency-injection container of one engine instance, an opaque resource. */
  class ServiceProvider {
    constructor ()
    {
    }
  }

  class FtpServerManager {
    var Status: FtpServerStatus
    var ErrorMessage: Option<string>
    var CurrentConfig: FtpServerConfig?
    var ftpServiceProvider: ServiceProvider?
    var ftpServerHost: FtpServerHost?
    /** Whether the semaphore that serialises calls has been disposed. */
    var lockDisposed: bool
    /** The snapshot each OnStatusChanged invocation could observe, oldest first. */
    ghost var Notifications: seq<Snapshot>

    ghost function Abstract(): State
      reads this, CurrentConfig
    {
      State(Status, ErrorMessage,
        if CurrentConfig == null then None else Some(CurrentConfig.Value()),
        ftpServerHost != null, ftpServiceProvider != null, lockDisposed)
    }

    /** The object invariant: a consistent state, and a log that ends with the current status. */
    ghost predicate Valid()
      reads this, CurrentConfig
    {
      Consistent(Abstract())
      && (Notifications == [] ==> SnapshotOf(Abstract()) == SnapshotOf(Initial))
      && (Notifications != [] ==> Notifications[|Notifications| - 1] == SnapshotOf(Abstract()))
    }

    constructor ()
      ensures Valid() && Live(Abstract())
      ensures Abstract() == Initial && Notifications == []
    {
      Status := Stopped;
      ErrorMessage := None;
      CurrentConfig := null;
      ftpServiceProvider := null;
      ftpServerHost := null;
      lockDisposed := false;
      Notifications := [];
    }

    method UpdateStatus(status: FtpServerStatus, errorMessage: Option<string>)
      modifies this
      ensures Abstract() == AfterUpdate(old(Abstract()), status, errorMessage)
      ensures Notifications == old(Notifications) + [Snapshot(status, errorMessage)]
      ensures CurrentConfig == old(CurrentConfig)
      ensures ftpServerHost == old(ftpServerHost) && ftpServiceProvider == old(ftpServiceProvider)
    {
      Status := status;
      ErrorMessage := errorMessage;
      Notifications := Notifications + [Snapshot(Status, ErrorMessage)];
    }

    method CleanupAsync(steps: CleanupSteps) returns (thrown: Option<string>)
      modifies this
      ensures var r := AfterCleanup(old(Abstract()), steps); Abstract() == r.post && thrown == r.thrown
      ensures Notifications == old(Notifications) && CurrentConfig == old(CurrentConfig)
      ensures ftpServerHost == null
      ensures ftpServiceProvider == if thrown.Some? then old(ftpServiceProvider) else null
    {
      if ftpServerHost != null {
        // the host's StopAsync runs here; an exception from it is logged and swallowed
        ftpServerHost := null;
      }
      thrown := None;
      if ftpServiceProvider != null {
        match steps.providerDispose
        case Succeeds =>
          ftpServiceProvider := null;
        case Throws(m) =>
          thrown := Some(m);
      }
    }

    method StartAsync(config: FtpServerConfig, steps: StartSteps) returns (escaped: Option<Escape>)
      requires Valid()
      modifies this
      ensures Valid()
      ensures var t := AfterStart(old(Abstract()), old(config.Value()), steps);
        Abstract() == t.post && Notifications == old(Notifications) + t.notified && escaped == t.escaped
      ensures Status == Running && old(Status) != Running ==>
        fresh(CurrentConfig) && fresh(ftpServerHost) && fresh(ftpServiceProvider)
      ensures Status != Running ==> CurrentConfig == old(CurrentConfig)
    {
      if lockDisposed {
        return Some(ObjectDisposed);
      }
      var failure := TryStart(config, steps);
      escaped := None;
      if failure.Some? {
        escaped := StartCatch(failure.value, steps.cleanup);
      }
    }

    /** The try block of StartAsync, up to the exception that ends it early, if any. */
    method TryStart(config: FtpServerConfig, steps: StartSteps) returns (failure: Option<string>)
      modifies this
      ensures var r := StartTry(old(Abstract()), old(config.Value()), steps);
        Abstract() == r.at && Notifications == old(Notifications) + r.notified && failure == r.failure
      ensures failure.Some? ==> CurrentConfig == old(CurrentConfig)
      ensures failure.None? ==> fresh(CurrentConfig) && fresh(ftpServerHost) && fresh(ftpServiceProvider)
    {
      if Status == Running {
        return Some(AlreadyRunningMessage);
      }
      UpdateStatus(Starting, None);
      var dir := EnsureDirectoryExists(steps.directoryExists, steps.createDirectory);
      if dir.Throws? {
        return Some(dir.message);
      }
      if steps.buildProvider.Throws? {
        return Some(steps.buildProvider.message);
      }
      ftpServiceProvider := new ServiceProvider();
      if steps.resolveHost.Throws? {
        return Some(steps.resolveHost.message);
      }
      ftpServerHost := new FtpServerHost();
      if steps.hostStart.Throws? {
        return Some(steps.hostStart.message);
      }
      CurrentConfig := config.Clone();
      UpdateStatus(Running, None);
      failure := None;
    }

    /** The catch block of StartAsync: report the error, notify, tear down. */
    method StartCatch(message: string, cleanup: CleanupSteps) returns (escaped: Option<Escape>)
      modifies this
      ensures var t := StartFailed(old(Abstract()), [], message, cleanup);
        Abstract() == t.post && Notifications == old(Notifications) + t.notified && escaped == t.escaped
      ensures CurrentConfig == old(CurrentConfig)
    {
      UpdateStatus(Error, Some(message));
      var thrown := CleanupAsync(cleanup);
      escaped := if thrown.Some? then Some(DisposeFailed(thrown.value)) else None;
    }

    method StopAsync(steps: CleanupSteps) returns (escaped: Option<Escape>)
      requires Valid()
      modifies this
      ensures Valid()
      ensures var t := AfterStop(old(Abstract()), steps);
        Abstract() == t.post && Notifications == old(Notifications) + t.notified && escaped == t.escaped
      ensures Status != Stopped ==> CurrentConfig == old(CurrentConfig)
    {
      escaped := None;
      if lockDisposed {
        escaped := Some(ObjectDisposed);
        return;
      }
      if Status != Running {
        return;
      }
      UpdateStatus(Stopping, None);
      var thrown := CleanupAsync(steps);
      if thrown.Some? {
        UpdateStatus(Error, thrown);
        return;
      }
      CurrentConfig := null;
      UpdateStatus(Stopped, None);
    }

    method Dispose(steps: CleanupSteps) returns (escaped: Option<Escape>)
      requires Valid()
      modifies this
      ensures Valid()
      ensures var t := AfterDispose(old(Abstract()), steps);
        Abstract() == t.post && Notifications == old(Notifications) && escaped == t.escaped
      ensures CurrentConfig == old(CurrentConfig)
    {
      if ftpServerHost != null {
        // the host's StopAsync runs synchronously here; an exception from it is logged and swallowed
        ftpServerHost := null;
      }
      escaped := None;
      if ftpServiceProvider != null {
        if steps.providerDispose.Throws? {
          escaped := Some(DisposeFailed(steps.providerDispose.message));
          return;
        }
      }
      ftpServiceProvider := null;
      lockDisposed := true;
    }
  }

  /**
   * The configuration a running server reports is its own copy: assigning
   * the caller's object after a successful start leaves it as it was.
   */
  method StartedConfigIsIsolated(config: FtpServerConfig, steps: StartSteps, rootPath: string, ipAddress: string, port: int32)
    returns (manager: FtpServerManager)
    requires StartFailure(steps).None?
    modifies config
    ensures fresh(manager) && manager.Valid() && manager.Status == Running
    ensures manager.CurrentConfig != null && manager.CurrentConfig.Value() == old(config.Value())
    ensures config.Value() == ConfigValue(rootPath, ipAddress, port)
  {
    manager := new FtpServerManager();
    var escaped := manager.StartAsync(config, steps);
    config.RootPath := rootPath;
    config.IpAddress := ipAddress;
    config.Port := port;
  }
}
