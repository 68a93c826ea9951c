/**
  The handshake between the daemon and the helper processes of one interface:
  socket, pid, name and cleanup files (src/privileged/commands.rs,
  runtime_files.rs, connection_store.rs, src/userspace_helper/mod.rs). The
  daemon's operations on an interface are serialised by its locks; helpers run
  on their own, crash anywhere, and pids are reused by other processes.
 */
module HelperProtocol {
  import opened Wrappers

  /** The life of a helper, in order. */
  datatype Life =
    | Starting                  // forked, nothing on disk yet
    | Bound                     // its socket is bound and listening
    | Configured                // routes and DNS are set
    | Named                     // the name file is written
    | Announced                 // the pid file is written
    | Running                   // the daemon was told
    | Stopping                  // noticed the missing socket, or a signal
    | Released(clean: bool)     // network state is cleaned up
    | Reported                  // the cleanup status is written
    | SocketGone                // unlinked the socket path
    | PidGone                   // unlinked the pid path
    | Exited

  datatype Helper = Helper(pid: nat, life: Life)

  datatype Status = Status(from: nat, ok: bool)

  /** `name` is what the name file held when the disconnect began. */
  datatype Outcome = Absent | Confirmed(helper: nat, name: Option<nat>)

  datatype Daemon =
    | Free
    | UpChecked                 // no live pid on file
    | UpUnlinked                // old files removed
    | UpWaiting                 // for the helper's report
    | DownWaiting(name: Option<nat>)                 // for the cleanup status
    | DownConfirmed(helper: nat, name: Option<nat>)  // waits for the named tunnel interface to vanish
    | DownDone(outcome: Outcome)

  /** One interface; the files hold the number of the helper that wrote them, the pid file the pid. */
  datatype Interface = Interface(
    helpers: seq<Helper>,
    socket: Option<nat>,
    pid: Option<nat>,
    name: Option<nat>,
    cleanup: Option<Status>,
    others: map<nat, bool>,     // pids of other processes; true if they run the same executable
    stalled: set<nat>,          // helpers whose tunnel device could not be stopped in time
    dirty: set<nat>,            // helpers whose cleanup of the network failed
    daemon: Daemon)

  predicate HoldsNetwork(life: Life) {
    life.Configured? || life.Named? || life.Announced? || life.Running? || life.Stopping?
  }

  predicate Listening(life: Life) {
    life.Bound? || HoldsNetwork(life)
  }

  /** Before the pid file, between the pid file and the status, and after the status. */
  predicate Early(life: Life) {
    life.Starting? || life.Bound? || life.Configured? || life.Named?
  }

  predicate Tracked(life: Life) {
    life.Announced? || life.Running? || life.Stopping? || life.Released?
  }

  predicate Tail(life: Life) {
    life.Reported? || life.SocketGone? || life.PidGone?
  }

  /** `pid_is_alive`. */
  predicate PidAlive(s: Interface, pid: nat) {
    pid in s.others || exists k :: 0 <= k < |s.helpers| && s.helpers[k].pid == pid && !s.helpers[k].life.Exited?
  }

  /** `pid_runs_this_binary`. */
  predicate PidIsOurs(s: Interface, pid: nat) {
    || (pid in s.others && s.others[pid])
    || exists k :: 0 <= k < |s.helpers| && s.helpers[k].pid == pid && !s.helpers[k].life.Exited?
  }

  /** `helper_is_live_without_record`; an inconclusive probe counts as live. */
  predicate JudgedLive(s: Interface, inconclusive: bool) {
    || inconclusive
    || (s.socket.Some? && s.socket.value < |s.helpers| && Listening(s.helpers[s.socket.value].life))
    || (s.pid.Some? && PidIsOurs(s, s.pid.value))
  }

  predicate NothingPresent(s: Interface) {
    s.pid.None? && s.name.None? && s.socket.None? && s.cleanup.None?
  }

  /** `macos_interface_exists`: the tunnel interface goes with the device, at the latest with the process. */
  predicate DeviceUp(s: Interface, h: nat) {
    h < |s.helpers| && !s.helpers[h].life.Exited? && (Settled(s.helpers[h].life) ==> h in s.stalled)
  }

  /** The interface of the name that the disconnect had read is gone, or there was no name. */
  predicate Vanished(s: Interface, name: Option<nat>) {
    name.Some? ==> !DeviceUp(s, name.value)
  }

  // ---- steps --------------------------------------------------------------------------------------

  datatype Step =
    | Advance(helper: nat)                  // Starting to Running, Running to Stopping, Reported to Exited
    | Release(helper: nat, clean: bool)
    | Report(helper: nat, stopped: bool)    // whether the tunnel device was stopped in time
    | Abandon(helper: nat, socketGone: bool) // a start that fails removes its files and exits
    | Crash(helper: nat)
    | UpBegin
    | UpUnlink(pidGone: bool, nameGone: bool, statusGone: bool)
    | Spawn(pid: nat)
    | UpEnd
    | DownBegin
    | DownRead
    | DownUnlink(pidGone: bool, nameGone: bool, statusGone: bool)
    | Finish
    | Sweep(inconclusive: bool)
    | DaemonDies
    | OtherStarts(pid: nat, ours: bool)
    | OtherExits(pid: nat)

  predicate CanAdvance(life: Life) {
    !life.Stopping? && !life.Released? && !life.Exited?
  }

  predicate Enabled(s: Interface, step: Step) {
    match step
    case Advance(h) => h < |s.helpers| && CanAdvance(s.helpers[h].life)
    case Release(h, _) => h < |s.helpers| && s.helpers[h].life.Stopping?
    case Report(h, _) => h < |s.helpers| && s.helpers[h].life.Released?
    case Abandon(h, _) => h < |s.helpers| && (Early(s.helpers[h].life) || s.helpers[h].life.Announced?)
    case Crash(h) => h < |s.helpers| && !s.helpers[h].life.Exited?
    case UpBegin => s.daemon.Free? && s.socket.None?
    case UpUnlink(_, _, _) => s.daemon.UpChecked?
    case Spawn(pid) => s.daemon.UpUnlinked? && !PidAlive(s, pid)
    case UpEnd => s.daemon.UpWaiting? && s.helpers != [] && !Early(s.helpers[|s.helpers| - 1].life)
      && !s.helpers[|s.helpers| - 1].life.Announced?
    case DownBegin => s.daemon.Free?
    case DownRead => s.daemon.DownWaiting? && s.cleanup.Some?
    case DownUnlink(_, _, _) => s.daemon.DownConfirmed? && Vanished(s, s.daemon.name)
    case Finish => s.daemon.DownDone? || s.daemon.DownWaiting? || s.daemon.DownConfirmed? // the waits run out
    case Sweep(_) => s.daemon.Free?
    case DaemonDies => true
    case OtherStarts(pid, _) => !PidAlive(s, pid)
    case OtherExits(pid) => pid in s.others
  }

  function SetLife(s: Interface, h: nat, life: Life): Interface
    requires h < |s.helpers|
  {
    s.(helpers := s.helpers[h := s.helpers[h].(life := life)])
  }

  /** One step of a helper along its life, with what it does to the files. */
  function Advanced(s: Interface, h: nat): Interface
    requires h < |s.helpers| && CanAdvance(s.helpers[h].life)
  {
    match s.helpers[h].life
    case Starting => SetLife(s, h, Bound).(socket := Some(h))
    case Bound => SetLife(s, h, Configured)
    case Configured => SetLife(s, h, Named).(name := Some(h))
    case Named => SetLife(s, h, Announced).(pid := Some(s.helpers[h].pid))
    case Announced => SetLife(s, h, Running)
    case Running => SetLife(s, h, Stopping)
    case Reported => SetLife(s, h, SocketGone).(socket := None)
    case SocketGone => SetLife(s, h, PidGone).(pid := None)
    case PidGone => SetLife(s, h, Exited).(name := None)
  }

  function Unlinked(s: Interface, pid: bool, name: bool, cleanup: bool): Interface {
    s.(
      pid := if pid then None else s.pid,
      name := if name then None else s.name,
      cleanup := if cleanup then None else s.cleanup)
  }

  /** `run_gotatun_down` up to the removal of the socket. */
  function DownBegun(s: Interface): Interface {
    if s.pid.Some? && PidAlive(s, s.pid.value) && !PidIsOurs(s, s.pid.value) then s
    else if NothingPresent(s) then s.(daemon := DownDone(Absent))
    else s.(socket := None, daemon := DownWaiting(s.name))
  }

  function Apply(s: Interface, step: Step): Interface
    requires Enabled(s, step)
  {
    match step
    case Advance(h) => Advanced(s, h)
    case Release(h, clean) =>
      SetLife(s, h, Released(clean)).(dirty := if clean then s.dirty else s.dirty + {h})
    case Report(h, stopped) =>
      SetLife(s, h, Reported).(
        cleanup := Some(Status(h, s.helpers[h].life.clean)),
        stalled := if stopped then s.stalled else s.stalled + {h})
    case Abandon(h, socketGone) =>
      SetLife(s, h, Exited).(
        socket := if socketGone then None else s.socket,
        name := None,
        pid := if s.helpers[h].life.Announced? then None else s.pid)
    case Crash(h) => SetLife(s, h, Exited)
    case UpBegin => if s.pid.Some? && PidAlive(s, s.pid.value) then s else s.(daemon := UpChecked)
    case UpUnlink(pid, name, cleanup) => Unlinked(s, pid, name, cleanup).(daemon := UpUnlinked)
    case Spawn(pid) => s.(helpers := s.helpers + [Helper(pid, Starting)], daemon := UpWaiting)
    case UpEnd => s.(daemon := Free)
    case DownBegin => DownBegun(s)
    case DownRead =>
      s.(daemon := if s.cleanup.value.ok then DownConfirmed(s.cleanup.value.from, s.daemon.name) else Free)
    case DownUnlink(pid, name, cleanup) =>
      Unlinked(s, pid, name, cleanup).(daemon := DownDone(Confirmed(s.daemon.helper, s.daemon.name)))
    case Finish => s.(daemon := Free)
    case Sweep(inconclusive) => if JudgedLive(s, inconclusive) then s else s.(socket := None, pid := None, name := None)
    case DaemonDies => s.(daemon := Free)
    case OtherStarts(pid, ours) => s.(others := s.others[pid := ours])
    case OtherExits(pid) => s.(others := s.others - {pid})
  }

  const NOTHING: Interface := Interface([], None, None, None, None, map[], {}, {}, Free)

  ghost predicate Possible(s: Interface, steps: seq<Step>)
    decreases |steps|
  {
    steps == [] || (Enabled(s, steps[0]) && Possible(Apply(s, steps[0]), steps[1..]))
  }

  ghost function End(s: Interface, steps: seq<Step>): Interface
    requires Possible(s, steps)
    decreases |steps|
  {
    if steps == [] then s else End(Apply(s, steps[0]), steps[1..])
  }

  // ---- the conditions ---------------------------------------------------------------------------------

  /** No helper is still about to remove a socket or a pid file. */
  ghost predicate NoUnlinks(s: Interface) {
    forall k :: 0 <= k < |s.helpers| ==> !s.helpers[k].life.Reported? && !s.helpers[k].life.SocketGone?
  }

  /** The pid file names the latest helper. */
  predicate OnFile(s: Interface) {
    s.helpers != [] && s.pid == Some(s.helpers[|s.helpers| - 1].pid)
  }

  /**
    What the handshake relies on and does not enforce: a helper that has
    reported removes its socket and pid file before the next one starts, no old
    "ok" is left for the next one to be confirmed by, and the daemon does not die
    during a start, unless the pid file happens to name the new helper already.
   */
  ghost predicate Tidy(s: Interface, step: Step) {
    && (step.Spawn? ==> NoUnlinks(s) && (s.cleanup.Some? ==> !s.cleanup.value.ok))
    && (step.DaemonDies? && Early(LatestLife(s)) ==> OnFile(s))
  }

  ghost predicate TidyRun(s: Interface, steps: seq<Step>)
    requires Possible(s, steps)
    decreases |steps|
  {
    steps != [] ==> Tidy(s, steps[0]) && TidyRun(Apply(s, steps[0]), steps[1..])
  }

  /** Some tidy run leads from `s` to `s'`. */
  ghost predicate Leads(s: Interface, s': Interface) {
    exists steps :: Possible(s, steps) && TidyRun(s, steps) && End(s, steps) == s'
  }

  // ---- what the handshake is for ------------------------------------------------------------------------

  /** At most one helper holds network state. */
  ghost predicate Exclusive(s: Interface) {
    forall j, k :: 0 <= j < k < |s.helpers| ==> !(HoldsNetwork(s.helpers[j].life) && HoldsNetwork(s.helpers[k].life))
  }

  /**
    A disconnect that has been confirmed, or found nothing, leaves no helper that
    holds network state, and the helper that confirmed it had cleaned up.
   */
  ghost predicate TrulyDown(s: Interface) {
    && (s.daemon.DownConfirmed? || s.daemon.DownDone? ==>
          forall k :: 0 <= k < |s.helpers| ==> !HoldsNetwork(s.helpers[k].life))
    && (s.daemon.DownConfirmed? ==> s.daemon.helper !in s.dirty)
    && (s.daemon.DownDone? && s.daemon.outcome.Confirmed? ==> s.daemon.outcome.helper !in s.dirty)
  }

  // ---- the invariant -----------------------------------------------------------------------------------

  function LatestLife(s: Interface): Life {
    if s.helpers == [] then Exited else s.helpers[|s.helpers| - 1].life
  }

  /** Of the earlier helpers nothing is left but perhaps the removal of a name file. */
  ghost predicate OthersGone(s: Interface) {
    forall k :: 0 <= k < |s.helpers| - 1 ==> Gone(s.helpers[k].life)
  }

  predicate Gone(life: Life) {
    life.PidGone? || life.Exited?
  }

  predicate Settled(life: Life) {
    Tail(life) || life.Exited?
  }

  predicate FilesOk(s: Interface) {
    && (Tracked(LatestLife(s)) ==> OnFile(s))
    && (s.cleanup.Some? && s.cleanup.value.ok ==>
          s.cleanup.value.from == |s.helpers| - 1 && Settled(LatestLife(s)) && s.cleanup.value.from !in s.dirty)
    && (forall h :: h in s.dirty ==> h < |s.helpers|)
    && (|s.helpers| - 1 in s.dirty ==> LatestLife(s) == Released(false) || Settled(LatestLife(s)))
    && (s.socket.Some? ==> s.socket.value < |s.helpers|)
  }

  predicate DaemonOk(s: Interface) {
    && (Early(LatestLife(s)) ==> s.daemon.UpWaiting? || OnFile(s))
    && (s.daemon.UpChecked? || s.daemon.UpUnlinked? || s.daemon.DownDone? ==> Settled(LatestLife(s)))
    && (s.daemon.DownConfirmed? ==>
          s.daemon.helper == |s.helpers| - 1 && Settled(LatestLife(s)) && s.daemon.helper !in s.dirty)
    && (s.daemon.DownDone? && s.daemon.outcome.Confirmed? ==>
          && s.daemon.outcome.helper == |s.helpers| - 1 && s.daemon.outcome.helper !in s.dirty
          && (s.daemon.outcome.name == Some(s.daemon.outcome.helper) ==> !DeviceUp(s, s.daemon.outcome.helper)))
    && (s.daemon.UpWaiting? ==> s.helpers != [])
    && (s.daemon.DownDone? && s.daemon.outcome.Absent? ==>
          s.pid.None? && s.name.None? && s.socket.None? && s.cleanup.None?)
  }

  ghost predicate Orderly(s: Interface) {
    OthersGone(s) && FilesOk(s) && DaemonOk(s)
  }

  /** A latest helper that has not reported is alive under the pid on file, unless the daemon waits for it. */
  lemma UnsettledIsAlive(s: Interface)
    requires Orderly(s) && !Settled(LatestLife(s)) && !s.daemon.UpWaiting?
    ensures s.pid.Some? && PidAlive(s, s.pid.value) && PidIsOurs(s, s.pid.value)
  {
    var last := |s.helpers| - 1;
    assert s.helpers[last].pid == s.pid.value && !s.helpers[last].life.Exited?;
  }

  /** A helper goes on with its life: only the latest one, or an earlier one that removes its name file. */
  lemma AdvanceStep(s: Interface, h: nat)
    requires Orderly(s) && Enabled(s, Advance(h))
    ensures Orderly(Apply(s, Advance(h)))
  {
    hide FilesOk, DaemonOk, Apply;
    if h < |s.helpers| - 1 {
      EarlierAdvances(s, h);
    } else {
      LatestFiles(s, h);
      LatestDaemon(s, h);
    }
  }

  lemma EarlierAdvances(s: Interface, h: nat)
    requires Orderly(s) && Enabled(s, Advance(h)) && h < |s.helpers| - 1
    ensures Orderly(Apply(s, Advance(h)))
  {
    hide PidAlive, PidIsOurs;
    assert Gone(s.helpers[h].life);
  }

  lemma LatestFiles(s: Interface, h: nat)
    requires OthersGone(s) && FilesOk(s) && Enabled(s, Advance(h)) && h == |s.helpers| - 1
    ensures OthersGone(Apply(s, Advance(h))) && FilesOk(Apply(s, Advance(h)))
  {
    hide PidAlive, PidIsOurs;
  }

  lemma LatestDaemon(s: Interface, h: nat)
    requires FilesOk(s) && DaemonOk(s) && Enabled(s, Advance(h)) && h == |s.helpers| - 1
    ensures DaemonOk(Apply(s, Advance(h)))
  {
    hide PidAlive, PidIsOurs;
  }

  /** The other steps of a helper. */
  lemma HelperStep(s: Interface, step: Step)
    requires step.Release? || step.Report? || step.Abandon? || step.Crash?
    requires Orderly(s) && Enabled(s, step)
    ensures Orderly(Apply(s, step))
  {
    hide PidAlive, PidIsOurs;
    var s', h := Apply(s, step), step.helper;
    assert forall k :: 0 <= k < |s.helpers| && k != h ==> s'.helpers[k] == s.helpers[k];
    if h < |s.helpers| - 1 {
      assert Gone(s.helpers[h].life);
    }
  }

  lemma UpStep(s: Interface, step: Step)
    requires step.UpBegin? || step.UpUnlink? || step.Spawn? || step.UpEnd?
    requires Orderly(s) && Enabled(s, step) && Tidy(s, step)
    ensures Orderly(Apply(s, step))
  {
    hide PidAlive, PidIsOurs;
    match step
    case UpBegin =>
      if !Settled(LatestLife(s)) {
        UnsettledIsAlive(s);
      }
    case Spawn(pid) =>
      var s' := Apply(s, step);
      forall k | 0 <= k < |s'.helpers| - 1
        ensures Gone(s'.helpers[k].life)
      {
        assert s'.helpers[k] == s.helpers[k];
      }
    case _ =>
  }

  lemma DownStep(s: Interface, step: Step)
    requires step.DownBegin? || step.DownRead? || step.DownUnlink? || step.Finish? || step.Sweep? || step.DaemonDies?
    requires Orderly(s) && Enabled(s, step) && Tidy(s, step)
    ensures Orderly(Apply(s, step))
  {
    hide PidAlive, PidIsOurs;
    if !Settled(LatestLife(s)) && !s.daemon.UpWaiting? {
      UnsettledIsAlive(s);
    }
  }

  lemma WorldStep(s: Interface, step: Step)
    requires step.OtherStarts? || step.OtherExits?
    requires Orderly(s) && Enabled(s, step)
    ensures Orderly(Apply(s, step))
  {
  }

  lemma TidyStep(s: Interface, step: Step)
    requires Orderly(s) && Enabled(s, step) && Tidy(s, step)
    ensures Orderly(Apply(s, step))
  {
    hide Orderly, Enabled, Tidy, Apply;
    if step.Advance? {
      AdvanceStep(s, step.helper);
    } else if step.Release? || step.Report? || step.Abandon? || step.Crash? {
      HelperStep(s, step);
    } else if step.UpBegin? || step.UpUnlink? || step.Spawn? || step.UpEnd? {
      UpStep(s, step);
    } else if step.OtherStarts? || step.OtherExits? {
      WorldStep(s, step);
    } else {
      DownStep(s, step);
    }
  }

  lemma {:induction false} TidyRunOrderly(s: Interface, steps: seq<Step>)
    requires Orderly(s) && Possible(s, steps) && TidyRun(s, steps)
    ensures Orderly(End(s, steps))
    decreases |steps|
  {
    hide Orderly, Enabled, Tidy, Apply;
    if steps != [] {
      TidyStep(s, steps[0]);
      TidyRunOrderly(Apply(s, steps[0]), steps[1..]);
    }
  }

  /** The interface is in a state some tidy run from nothing leads to. */
  ghost predicate Reached(s: Interface) {
    Leads(NOTHING, s)
  }

  lemma LeadsOrderly(s: Interface, s': Interface)
    requires Orderly(s) && Leads(s, s')
    ensures Orderly(s')
  {
    hide Enabled, Tidy, Apply, Orderly;
    var steps :| Possible(s, steps) && TidyRun(s, steps) && End(s, steps) == s';
    TidyRunOrderly(s, steps);
  }

  lemma ReachedOrderly(s: Interface)
    requires Reached(s)
    ensures Orderly(s)
  {
    hide Leads;
    assert Orderly(NOTHING);
    LeadsOrderly(NOTHING, s);
  }

  // ---- theorems ------------------------------------------------------------------------------------------

  /** No helper is started while an earlier one is starting, at work, or has not reported its cleanup. */
  lemma SpawnIsAlone(s: Interface, pid: nat, k: nat)
    requires Reached(s) && Enabled(s, Spawn(pid)) && k < |s.helpers|
    ensures Settled(s.helpers[k].life)
  {
    hide Reached;
    ReachedOrderly(s);
  }

  /** At most one helper holds network state at any time. */
  lemma OneHolder(s: Interface, j: nat, k: nat)
    requires Reached(s) && j < |s.helpers| && k < |s.helpers| && HoldsNetwork(s.helpers[j].life)
      && HoldsNetwork(s.helpers[k].life)
    ensures j == k
  {
    hide Reached;
    ReachedOrderly(s);
  }

  /** The removal of stale files happens only when no helper is starting, working or cleaning up. */
  lemma SweepSparesLive(s: Interface, inconclusive: bool, k: nat)
    requires Reached(s) && Enabled(s, Sweep(inconclusive)) && Apply(s, Sweep(inconclusive)) != s && k < |s.helpers|
    ensures Settled(s.helpers[k].life)
  {
    hide Reached, PidAlive, PidIsOurs;
    ReachedOrderly(s);
    if !Settled(LatestLife(s)) && !s.daemon.UpWaiting? {
      UnsettledIsAlive(s);
    }
  }

  /**
    A disconnect succeeds only if nothing of a helper was there, or the helper
    started last confirmed it, having cleaned up; either way no helper holds network state.
   */
  lemma DisconnectIsConfirmed(s: Interface, k: nat)
    requires Reached(s) && s.daemon.DownDone?
    ensures k < |s.helpers| ==> !HoldsNetwork(s.helpers[k].life)
    ensures s.daemon.outcome.Confirmed? ==>
      s.daemon.outcome.helper == |s.helpers| - 1 && s.daemon.outcome.helper !in s.dirty
    ensures s.daemon.outcome.Absent? ==> s.pid.None? && s.name.None? && s.socket.None? && s.cleanup.None?
  {
    hide Reached;
    ReachedOrderly(s);
  }

  /**
    A disconnect goes on only past a pid file that names no process, or a process
    of this program; otherwise it is refused and nothing is touched.
   */
  lemma StrangersAreLeftAlone(s: Interface)
    requires Enabled(s, DownBegin)
    ensures Apply(s, DownBegin).daemon.Free? <==>
      && s.pid.Some? && PidAlive(s, s.pid.value)
      && !(s.pid.value in s.others && s.others[s.pid.value])
      && forall k :: 0 <= k < |s.helpers| && !s.helpers[k].life.Exited? ==> s.helpers[k].pid != s.pid.value
    ensures Apply(s, DownBegin).daemon.Free? ==> Apply(s, DownBegin) == s
  {
  }

  /** An "ok" on disk was written by the helper started last, after it let go of the network. */
  lemma StatusIsLatest(s: Interface)
    requires Reached(s) && s.cleanup.Some? && s.cleanup.value.ok
    ensures s.cleanup.value.from == |s.helpers| - 1 && !HoldsNetwork(LatestLife(s))
  {
    hide Reached;
    ReachedOrderly(s);
  }

  /** A disconnect that read the latest helper's name is confirmed only once its tunnel interface is gone. */
  lemma ConfirmedDeviceIsGone(s: Interface)
    requires Reached(s) && s.daemon.DownDone? && s.daemon.outcome.Confirmed?
    requires s.daemon.outcome.name == Some(|s.helpers| - 1)
    ensures !DeviceUp(s, |s.helpers| - 1)
  {
    hide Reached;
    ReachedOrderly(s);
  }
}
