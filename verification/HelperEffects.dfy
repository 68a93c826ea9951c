/**
  What the daemon machine assumes of an interface is what the handshake keeps:
  every step of the handshake shows itself to the daemon as one of the effects
  the machine has for it, and a confirmed disconnect leaves what `BringDown`
  says.
 */
module HelperEffects {
  import opened Wrappers
  import opened Records
  import opened Daemon
  import H = HelperProtocol

  /** The helper that owns the socket. One that has been forked is going to bind it. */
  function SocketOwner(s: H.Interface): Option<nat> {
    if H.LatestLife(s).Starting? then Some(|s.helpers| - 1) else s.socket
  }

  /** Helper `k` is launch `numbers[k]`: it is live until it has reported, and the sockets agree. */
  ghost predicate Shows(s: H.Interface, numbers: seq<nat>, d: Shared, i: Interface) {
    && |numbers| == |s.helpers| && (forall n :: n in d.live ==> n < |d.launches|)
    && (forall k :: 0 <= k < |numbers| ==> IsLaunch(d, numbers[k], i))
    && (forall k :: 0 <= k < |numbers| ==> (numbers[k] in d.live <==> !H.Settled(s.helpers[k].life)))
    && (forall n :: n in d.live && IsLaunch(d, n, i) ==> n in numbers)
    && (forall j, k :: 0 <= j < k < |numbers| ==> numbers[j] != numbers[k])
    && (SocketOwner(s).Some? ==> SocketOwner(s).value < |numbers|)
    && (i in d.sockets <==> SocketOwner(s).Some?)
    && (i in d.sockets ==> d.sockets[i] == numbers[SocketOwner(s).value])
  }

  predicate IsLaunch(d: Shared, n: nat, i: Interface) {
    n < |d.launches| && d.launches[n].interface == i
  }

  /** A live launch of the interface crashes. */
  ghost predicate Crashes(d: Shared, d': Shared, i: Interface) {
    exists n :: n in d.live && IsLaunch(d, n, i) && d' == EnvironmentStep(d, Crash(n))
  }

  /** The socket of an interface without a live helper goes. */
  predicate Wipes(d: Shared, d': Shared, i: Interface) {
    !HelperOn(d, i) && d' == EnvironmentStep(d, Wipe(i))
  }

  ghost predicate CrashesAndWipes(d: Shared, d': Shared, i: Interface) {
    exists mid :: Crashes(d, mid, i) && Wipes(mid, d', i)
  }

  /** What a step of the handshake is to the daemon machine. */
  ghost predicate Explains(lang: Language, step: H.Step, d: Shared, d': Shared, stored: Record) {
    var i := stored.interface;
    match step
    case Spawn(_) => UpSpawnSection(lang, d, stored, false) == (d', UpPost(stored, false, |d.launches|))
    case DownBegin => exists c: Choice :: !c.ok && d' == DownEffect(d, i, c)
    case Sweep(_) => exists c :: d' == ClearDead(d, i, c)
    case Advance(_) => d' == d || Wipes(d, d', i)
    case Report(_, _) => Crashes(d, d', i)
    case Abandon(_, _) => Crashes(d, d', i) || CrashesAndWipes(d, d', i)
    case Crash(_) => d' == d || Crashes(d, d', i) || CrashesAndWipes(d, d', i)
    case _ => d' == d
  }

  // ---- attended runs ------------------------------------------------------------------------------

  /** What holds beyond `Orderly` as long as the daemon has not died during a start. */
  predicate Attended(s: H.Interface) {
    && (H.Early(H.LatestLife(s)) ==> s.daemon.UpWaiting?)
    && (H.LatestLife(s).Starting? ==> s.socket.None?)
    && (s.daemon.UpChecked? || s.daemon.UpUnlinked? ==> s.socket.None?)
    && (s.daemon.DownWaiting? || s.daemon.DownConfirmed? || s.daemon.DownDone? ==> s.socket.None?)
  }

  predicate Attends(s: H.Interface, step: H.Step) {
    step.DaemonDies? ==> !H.Early(H.LatestLife(s))
  }

  lemma AttendedStep(s: H.Interface, step: H.Step)
    requires H.Orderly(s) && Attended(s) && H.Enabled(s, step) && Attends(s, step)
    ensures Attended(H.Apply(s, step))
  {
    hide H.PidAlive, H.PidIsOurs, H.FilesOk;
    if (step.Advance? || step.Abandon? || step.Crash?) && step.helper < |s.helpers| - 1 {
      assert H.Gone(s.helpers[step.helper].life);
    }
  }

  ghost predicate AttendedRun(s: H.Interface, steps: seq<H.Step>)
    requires H.Possible(s, steps)
    decreases |steps|
  {
    steps != [] ==> Attends(s, steps[0]) && AttendedRun(H.Apply(s, steps[0]), steps[1..])
  }

  /** A tidy run from nothing in which the daemon never dies during a start leads here. */
  ghost predicate ReachedAttended(s: H.Interface) {
    exists steps ::
      && H.Possible(H.NOTHING, steps) && H.TidyRun(H.NOTHING, steps) && AttendedRun(H.NOTHING, steps)
      && H.End(H.NOTHING, steps) == s
  }

  lemma {:induction false} AttendedRunKeeps(s: H.Interface, steps: seq<H.Step>)
    requires H.Orderly(s) && Attended(s) && H.Possible(s, steps) && H.TidyRun(s, steps) && AttendedRun(s, steps)
    ensures H.Orderly(H.End(s, steps)) && Attended(H.End(s, steps))
    decreases |steps|
  {
    hide H.Orderly, H.Enabled, H.Tidy, H.Apply, Attended, Attends;
    if steps != [] {
      AttendedStep(s, steps[0]);
      H.TidyStep(s, steps[0]);
      AttendedRunKeeps(H.Apply(s, steps[0]), steps[1..]);
    }
  }

  lemma AttendedIsOrderly(s: H.Interface)
    requires ReachedAttended(s)
    ensures H.Orderly(s) && Attended(s)
  {
    hide H.Possible, H.TidyRun, AttendedRun, H.End;
    var steps :| H.Possible(H.NOTHING, steps) && H.TidyRun(H.NOTHING, steps) && AttendedRun(H.NOTHING, steps)
      && H.End(H.NOTHING, steps) == s;
    assert H.Orderly(H.NOTHING) && Attended(H.NOTHING);
    AttendedRunKeeps(H.NOTHING, steps);
  }

  // ---- who is live ------------------------------------------------------------------------------

  /** The machine sees a helper on the interface exactly if one has not reported. */
  lemma LiveIsUnsettled(s: H.Interface, numbers: seq<nat>, d: Shared, i: Interface)
    requires Shows(s, numbers, d, i)
    ensures HelperOn(d, i) <==> exists k :: 0 <= k < |s.helpers| && !H.Settled(s.helpers[k].life)
  {
    if HelperOn(d, i) {
      var n :| n in d.live && n < |d.launches| && d.launches[n].interface == i;
      assert IsLaunch(d, n, i);
      var k :| 0 <= k < |numbers| && numbers[k] == n;
      assert !H.Settled(s.helpers[k].life);
    }
    if k :| 0 <= k < |s.helpers| && !H.Settled(s.helpers[k].life) {
      assert numbers[k] in d.live && IsLaunch(d, numbers[k], i);
    }
  }

  lemma NoneLive(s: H.Interface, numbers: seq<nat>, d: Shared, i: Interface)
    requires Shows(s, numbers, d, i) && H.Orderly(s) && H.Settled(H.LatestLife(s))
    ensures !HelperOn(d, i)
  {
    LiveIsUnsettled(s, numbers, d, i);
  }

  // ---- effects --------------------------------------------------------------------------------------

  /** A helper stops being live. */
  lemma CrashShows(s: H.Interface, numbers: seq<nat>, d: Shared, i: Interface, h: nat, s': H.Interface)
    requires Shows(s, numbers, d, i) && h < |s.helpers| && !H.Settled(s.helpers[h].life)
    requires |s'.helpers| == |s.helpers| && H.Settled(s'.helpers[h].life) && SocketOwner(s') == SocketOwner(s)
    requires forall k :: 0 <= k < |s.helpers| && k != h ==> s'.helpers[k] == s.helpers[k]
    ensures Crashes(d, EnvironmentStep(d, Crash(numbers[h])), i)
      && Shows(s', numbers, EnvironmentStep(d, Crash(numbers[h])), i)
  {
    var d' := EnvironmentStep(d, Crash(numbers[h]));
    assert IsLaunch(d, numbers[h], i);
    forall k | 0 <= k < |numbers|
      ensures IsLaunch(d', numbers[k], i) && (numbers[k] in d'.live <==> !H.Settled(s'.helpers[k].life))
    {
      assert IsLaunch(d, numbers[k], i);
    }
    assert forall n :: n in d'.live && IsLaunch(d', n, i) ==> n in d.live && IsLaunch(d, n, i);
  }

  /** Its socket goes. */
  lemma WipeShows(s: H.Interface, numbers: seq<nat>, d: Shared, i: Interface, s': H.Interface)
    requires Shows(s, numbers, d, i) && |s'.helpers| == |s.helpers| && SocketOwner(s').None?
    requires forall k :: 0 <= k < |s.helpers| ==> H.Settled(s'.helpers[k].life) == H.Settled(s.helpers[k].life)
    ensures Shows(s', numbers, Unlink(d, i), i)
  {
    var d' := Unlink(d, i);
    assert forall n :: IsLaunch(d', n, i) == IsLaunch(d, n, i);
  }

  /** A step that moves no helper across its report and leaves the socket is nothing to the daemon. */
  lemma NothingShows(s: H.Interface, numbers: seq<nat>, d: Shared, i: Interface, s': H.Interface)
    requires Shows(s, numbers, d, i) && |s'.helpers| == |s.helpers| && SocketOwner(s') == SocketOwner(s)
    requires forall k :: 0 <= k < |s.helpers| ==> H.Settled(s'.helpers[k].life) == H.Settled(s.helpers[k].life)
    ensures Shows(s', numbers, d, i)
  {
  }

  /** A new helper is a new launch that will own the socket. */
  lemma LaunchShows(
      lang: Language, s: H.Interface, numbers: seq<nat>, d: Shared, stored: Record, pid: nat, s': H.Interface)
    requires Shows(s, numbers, d, stored.interface) && s'.helpers == s.helpers + [H.Helper(pid, H.Starting)]
    ensures Shows(s', numbers + [|d.launches|], Spawn(lang, d, stored), stored.interface)
  {
    var i, d', numbers' := stored.interface, Spawn(lang, d, stored), numbers + [|d.launches|];
    forall k | 0 <= k < |numbers|
      ensures IsLaunch(d', numbers'[k], i) && numbers'[k] != |d.launches|
      ensures numbers'[k] in d'.live <==> !H.Settled(s'.helpers[k].life)
    {
      assert IsLaunch(d, numbers[k], i) && s'.helpers[k] == s.helpers[k];
    }
    assert numbers'[|numbers|] == |d.launches|;
    forall n | n in d'.live && IsLaunch(d', n, i)
      ensures n in numbers'
    {
      if n != |d.launches| {
        assert IsLaunch(d, n, i);
      }
    }
  }

  lemma SpawnShows(
      lang: Language, s: H.Interface, numbers: seq<nat>, d: Shared, stored: Record, pid: nat) returns (d': Shared,
          numbers': seq<nat>)
    requires H.Orderly(s) && Attended(s) && H.Enabled(s, H.Spawn(pid)) && Shows(s, numbers, d, stored.interface)
    ensures Explains(lang, H.Spawn(pid), d, d', stored)
    ensures Shows(H.Apply(s, H.Spawn(pid)), numbers', d', stored.interface)
  {
    hide Shows, HelperOn, Spawn, H.PidAlive;
    NoneLive(s, numbers, d, stored.interface);
    d', numbers' := Spawn(lang, d, stored), numbers + [|d.launches|];
    LaunchShows(lang, s, numbers, d, stored, pid, H.Apply(s, H.Spawn(pid)));
  }

  // ---- every step -------------------------------------------------------------------------------------

  lemma AdvanceShows(
      lang: Language, s: H.Interface, numbers: seq<nat>, d: Shared, stored: Record, h: nat) returns (d': Shared)
    requires H.Orderly(s) && Attended(s) && H.Enabled(s, H.Advance(h)) && Shows(s, numbers, d, stored.interface)
    ensures Explains(lang, H.Advance(h), d, d', stored)
    ensures Shows(H.Apply(s, H.Advance(h)), numbers, d', stored.interface)
  {
    hide Shows, UpSpawnSection;
    var i, s' := stored.interface, H.Apply(s, H.Advance(h));
    if h < |s.helpers| - 1 {
      assert H.Gone(s.helpers[h].life);
    }
    if s.helpers[h].life.Reported? {
      NoneLive(s, numbers, d, i);
      d' := Unlink(d, i);
      WipeShows(s, numbers, d, i, s');
    } else {
      d' := d;
      NothingShows(s, numbers, d, i, s');
    }
  }

  /** The helper stops being live, and unless its socket stays, that goes too. */
  lemma LeavingShows(
      s: H.Interface, numbers: seq<nat>, d: Shared, i: Interface, h: nat, life: H.Life,
      s': H.Interface) returns (d': Shared)
    requires H.Orderly(s) && Attended(s) && Shows(s, numbers, d, i) && h < |s.helpers| && !H.Settled(s.helpers[h].life)
      && H.Settled(life)
    requires s'.helpers == s.helpers[h := s.helpers[h].(life := life)] && (s'.socket == s.socket || s'.socket.None?)
    ensures Crashes(d, d', i) || CrashesAndWipes(d, d', i)
    ensures SocketOwner(s') == SocketOwner(s) ==> Crashes(d, d', i)
    ensures Shows(s', numbers, d', i)
  {
    hide Shows;
    assert h == |s.helpers| - 1;
    var middle := s.(helpers := s'.helpers, socket := SocketOwner(s));
    CrashShows(s, numbers, d, i, h, middle);
    var mid := EnvironmentStep(d, Crash(numbers[h])) by { ShownInRange(s, numbers, d, i); }
    if SocketOwner(s') == SocketOwner(s) {
      d' := mid;
      NothingShows(middle, numbers, mid, i, s');
    } else {
      d' := Unlink(mid, i);
      LiveIsUnsettled(middle, numbers, mid, i);
      assert Wipes(mid, d', i);
      WipeShows(middle, numbers, mid, i, s');
    }
  }

  lemma ShownInRange(s: H.Interface, numbers: seq<nat>, d: Shared, i: Interface)
    requires Shows(s, numbers, d, i)
    ensures |numbers| == |s.helpers|
  {
  }

  lemma HelperShows(
      lang: Language, s: H.Interface, numbers: seq<nat>, d: Shared, stored: Record, step: H.Step) returns (d': Shared)
    requires step.Release? || step.Report? || step.Abandon? || step.Crash?
    requires H.Orderly(s) && Attended(s) && H.Enabled(s, step) && Shows(s, numbers, d, stored.interface)
    ensures Explains(lang, step, d, d', stored)
    ensures Shows(H.Apply(s, step), numbers, d', stored.interface)
  {
    hide Shows, UpSpawnSection;
    var i, s', h := stored.interface, H.Apply(s, step), step.helper;
    if h < |s.helpers| - 1 {
      assert H.Gone(s.helpers[h].life);
    }
    if step.Release? || H.Settled(s.helpers[h].life) {
      d' := d;
      NothingShows(s, numbers, d, i, s');
    } else {
      d' := LeavingShows(s, numbers, d, i, h, s'.helpers[h].life, s');
    }
  }

  lemma SweepShows(
      lang: Language, s: H.Interface, numbers: seq<nat>, d: Shared, stored: Record,
        inconclusive: bool) returns (d': Shared)
    requires H.Orderly(s) && Attended(s) && H.Enabled(s, H.Sweep(inconclusive))
      && Shows(s, numbers, d, stored.interface)
    ensures Explains(lang, H.Sweep(inconclusive), d, d', stored)
    ensures Shows(H.Apply(s, H.Sweep(inconclusive)), numbers, d', stored.interface)
  {
    hide Shows, UpSpawnSection, H.PidAlive, H.PidIsOurs;
    var i, s' := stored.interface, H.Apply(s, H.Sweep(inconclusive));
    var c := Choice(ConnectionId(0, 0), !H.JudgedLive(s, inconclusive), false, false);
    d' := ClearDead(d, i, c);
    if c.ok {
      if !H.Settled(H.LatestLife(s)) {
        H.UnsettledIsAlive(s);
      }
      NoneLive(s, numbers, d, i);
      WipeShows(s, numbers, d, i, s');
    }
  }

  lemma DownShows(
      lang: Language, s: H.Interface, numbers: seq<nat>, d: Shared, stored: Record) returns (d': Shared)
    requires H.Orderly(s) && Attended(s) && H.Enabled(s, H.DownBegin) && Shows(s, numbers, d, stored.interface)
    ensures Explains(lang, H.DownBegin, d, d', stored)
    ensures Shows(H.Apply(s, H.DownBegin), numbers, d', stored.interface)
  {
    hide Shows, UpSpawnSection, H.PidAlive, H.PidIsOurs;
    var i, s' := stored.interface, H.Apply(s, H.DownBegin);
    var c := Choice(ConnectionId(0, 0), false, s'.daemon.DownWaiting?, false);
    d' := DownEffect(d, i, c);
    if c.partial {
      WipeShows(s, numbers, d, i, s');
    } else {
      NothingShows(s, numbers, d, i, s');
    }
  }

  /**
    Every step of the handshake from an orderly and attended state is to the daemon one of the effects its
    machine has.
   */
  lemma HandshakeStep(lang: Language, s: H.Interface, step: H.Step, numbers: seq<nat>, d: Shared, stored: Record)
    returns (d': Shared, numbers': seq<nat>)
    requires H.Orderly(s) && Attended(s) && H.Enabled(s, step) && Shows(s, numbers, d, stored.interface)
    ensures Explains(lang, step, d, d', stored)
    ensures Shows(H.Apply(s, step), numbers', d', stored.interface)
  {
    hide Shows, H.Orderly, H.PidAlive, H.PidIsOurs, H.Advanced, UpSpawnSection, DownEffect, ClearDead;
    d', numbers' := d, numbers;
    if step.Spawn? {
      d', numbers' := SpawnShows(lang, s, numbers, d, stored, step.pid);
    } else if step.Advance? {
      d' := AdvanceShows(lang, s, numbers, d, stored, step.helper);
    } else if step.Release? || step.Report? || step.Abandon? || step.Crash? {
      d' := HelperShows(lang, s, numbers, d, stored, step);
    } else if step.Sweep? {
      d' := SweepShows(lang, s, numbers, d, stored, step.inconclusive);
    } else if step.DownBegin? {
      d' := DownShows(lang, s, numbers, d, stored);
    } else {
      NothingShows(s, numbers, d, stored.interface, H.Apply(s, step));
    }
  }

  /** When a disconnect is confirmed, nothing is left on the interface for the daemon either. */
  lemma ConfirmedIsBroughtDown(s: H.Interface, numbers: seq<nat>, d: Shared, i: Interface)
    requires ReachedAttended(s) && s.daemon.DownDone? && Shows(s, numbers, d, i)
    ensures BringDown(d, i) == d && !HelperOn(d, i) && i !in d.sockets
  {
    hide ReachedAttended;
    AttendedIsOrderly(s);
    NoneLive(s, numbers, d, i);
  }

  /** The effects explain the steps of a run one by one. */
  ghost predicate Explained(lang: Language, steps: seq<H.Step>, ds: seq<Shared>, stored: Record) {
    && |ds| == |steps| + 1
    && forall k :: 0 <= k < |steps| ==> Explains(lang, steps[k], ds[k], ds[k + 1], stored)
  }

  /** Every tidy and attended run of the handshake shows itself to the daemon as a run of its effects. */
  lemma {:induction false} HandshakeRun(
      lang: Language, s: H.Interface, steps: seq<H.Step>, numbers: seq<nat>, d: Shared, stored: Record)
    returns (ds: seq<Shared>, numbers': seq<nat>)
    requires H.Orderly(s) && Attended(s) && Shows(s, numbers, d, stored.interface)
    requires H.Possible(s, steps) && H.TidyRun(s, steps) && AttendedRun(s, steps)
    ensures Explained(lang, steps, ds, stored) && ds[0] == d
    ensures Shows(H.End(s, steps), numbers', ds[|steps|], stored.interface)
    decreases |steps|
  {
    hide Shows, H.Orderly, H.Enabled, H.Tidy, H.Apply, Explains, Attended, Attends;
    if steps == [] {
      ds, numbers' := [d], numbers;
    } else {
      var d', between := HandshakeStep(lang, s, steps[0], numbers, d, stored);
      H.TidyStep(s, steps[0]);
      AttendedStep(s, steps[0]);
      var rest;
      rest, numbers' := HandshakeRun(lang, H.Apply(s, steps[0]), steps[1..], between, d', stored);
      ds := [d] + rest;
      forall k | 0 <= k < |steps|
        ensures Explains(lang, steps[k], ds[k], ds[k + 1], stored)
      {
        if k > 0 {
          assert Explains(lang, steps[1..][k - 1], rest[k - 1], rest[k], stored);
        }
      }
    }
  }
}
