/**
  The conditions of the handshake are exact: from every state that tidy runs lead
  to, a step keeps the helpers exclusive and the disconnects true in every tidy
  continuation if and only if it is tidy itself. And such untidy steps occur.
 */
module HelperWitness {
  import opened Wrappers
  import opened HelperProtocol

  lemma {:induction false} RunsAppend(s: Interface, a: seq<Step>, b: seq<Step>)
    requires Possible(s, a) && TidyRun(s, a) && Possible(End(s, a), b) && TidyRun(End(s, a), b)
    ensures Possible(s, a + b) && TidyRun(s, a + b) && End(s, a + b) == End(End(s, a), b)
    decreases |a|
  {
    hide Enabled, Apply, Tidy;
    if a == [] {
      assert a + b == b;
    } else {
      assert (a + b)[1..] == a[1..] + b;
      RunsAppend(Apply(s, a[0]), a[1..], b);
    }
  }

  lemma LeadsOn(s: Interface, middle: Interface, s': Interface)
    requires Leads(s, middle) && Leads(middle, s')
    ensures Leads(s, s')
  {
    hide Possible, End, TidyRun;
    var a :| Possible(s, a) && TidyRun(s, a) && End(s, a) == middle;
    var b :| Possible(middle, b) && TidyRun(middle, b) && End(middle, b) == s';
    RunsAppend(s, a, b);
  }

  /** One more step. */
  lemma Then(s: Interface, middle: Interface, step: Step, s': Interface)
    requires Leads(s, middle) && Enabled(middle, step) && Tidy(middle, step) && Apply(middle, step) == s'
    ensures Leads(s, s')
  {
    hide Enabled, Apply, Tidy;
    var steps := [step];
    assert steps[1..] == [];
    assert Possible(s', []) && TidyRun(s', []) && End(s', []) == s';
    assert Possible(middle, steps) && TidyRun(middle, steps) && End(middle, steps) == s';
    LeadsOn(s, middle, s');
  }

  lemma Here(s: Interface)
    ensures Leads(s, s)
  {
    assert Possible(s, []) && TidyRun(s, []) && End(s, []) == s;
  }

  /** The interface with one more helper, at this point of its life. */
  function With(s: Interface, pid: nat, life: Life): Interface {
    s.(helpers := s.helpers + [Helper(pid, life)])
  }

  lemma WithLife(s: Interface, pid: nat, life: Life, life': Life)
    ensures SetLife(With(s, pid, life), |s.helpers|, life') == With(s, pid, life')
  {
    assert (s.helpers + [Helper(pid, life)])[|s.helpers| := Helper(pid, life')] == s.helpers + [Helper(pid, life')];
  }

  /** A new process is forked: no live pid on file, and all the old files are removed. */
  function Forked(s: Interface, pid: nat): Interface {
    With(Unlinked(s, true, true, true), pid, Starting).(daemon := UpWaiting)
  }

  lemma Spawns(s: Interface, pid: nat)
    requires s.daemon.Free? && s.socket.None? && (s.pid.Some? ==> !PidAlive(s, s.pid.value)) && !PidAlive(s, pid)
    requires NoUnlinks(s)
    ensures Leads(s, Forked(s, pid))
  {
    hide Leads, PidAlive;
    var checked := s.(daemon := UpChecked);
    var unlinked := Unlinked(s, true, true, true).(daemon := UpUnlinked);
    Here(s);
    Then(s, s, UpBegin, checked);
    Then(s, checked, UpUnlink(true, true, true), unlinked);
    SamePids(s, unlinked, pid);
    Then(s, unlinked, Spawn(pid), Forked(s, pid));
  }

  lemma SamePids(s: Interface, s': Interface, pid: nat)
    requires s'.helpers == s.helpers && s'.others == s.others
    ensures PidAlive(s, pid) == PidAlive(s', pid)
  {
  }

  /** What the interface looks like with its newest helper up. */
  function Up(s: Interface, pid: nat): Interface {
    var n := |s.helpers|;
    With(s, pid, Running).(socket := Some(n), name := Some(n), pid := Some(pid), daemon := Free)
  }

  lemma Configures(s: Interface, pid: nat)
    ensures var n := |s.helpers|;
      Leads(With(s, pid, Starting), With(s, pid, Named).(socket := Some(n), name := Some(n)))
  {
    hide Leads, PidAlive, PidIsOurs;
    var n := |s.helpers|;
    var s0 := With(s, pid, Starting);
    var s1 := With(s, pid, Bound).(socket := Some(n));
    var s2 := With(s, pid, Configured).(socket := Some(n));
    Here(s0);
    WithLife(s, pid, Starting, Bound);
    Then(s0, s0, Advance(n), s1);
    WithLife(s.(socket := Some(n)), pid, Bound, Configured);
    Then(s0, s1, Advance(n), s2);
    WithLife(s.(socket := Some(n)), pid, Configured, Named);
    Then(s0, s2, Advance(n), With(s, pid, Named).(socket := Some(n), name := Some(n)));
  }

  lemma Announces(s: Interface, pid: nat)
    requires s.daemon.UpWaiting?
    ensures Leads(With(s, pid, Named), With(s, pid, Running).(pid := Some(pid), daemon := Free))
  {
    hide Leads, PidAlive, PidIsOurs;
    var n, s0 := |s.helpers|, With(s, pid, Named);
    var s1 := With(s, pid, Announced).(pid := Some(pid));
    var s2 := With(s, pid, Running).(pid := Some(pid));
    Here(s0);
    WithLife(s, pid, Named, Announced);
    Then(s0, s0, Advance(n), s1);
    WithLife(s.(pid := Some(pid)), pid, Announced, Running);
    Then(s0, s1, Advance(n), s2);
    Then(s0, s2, UpEnd, s2.(daemon := Free));
  }

  /** The helper comes up and the daemon reports success. */
  lemma ComesUp(s: Interface, pid: nat)
    requires s.daemon.UpWaiting?
    ensures Leads(With(s, pid, Starting), Up(s, pid))
  {
    hide Leads;
    var configured := s.(socket := Some(|s.helpers|), name := Some(|s.helpers|));
    Configures(s, pid);
    Announces(configured, pid);
    LeadsOn(With(s, pid, Starting), With(configured, pid, Named), Up(s, pid));
  }

  lemma StartsUp(s: Interface, pid: nat)
    requires s.daemon.Free? && s.socket.None? && (s.pid.Some? ==> !PidAlive(s, s.pid.value)) && !PidAlive(s, pid)
    requires NoUnlinks(s)
    ensures Leads(s, Up(Unlinked(s, true, true, true), pid))
  {
    hide Leads, PidAlive;
    var base := Unlinked(s, true, true, true).(daemon := UpWaiting);
    Spawns(s, pid);
    ComesUp(base, pid);
    LeadsOn(s, With(base, pid, Starting), Up(base, pid));
  }

  /** Some pid is free. */
  lemma {:induction false} FreshAmong(helpers: seq<Helper>, others: set<nat>) returns (pid: nat)
    ensures forall k :: 0 <= k < |helpers| ==> helpers[k].pid < pid
    ensures forall other :: other in others ==> other < pid
    decreases |helpers|, |others|
  {
    if helpers != [] {
      var last := |helpers| - 1;
      pid := FreshAmong(helpers[..last], others);
      pid := if pid <= helpers[last].pid then helpers[last].pid + 1 else pid;
      assert forall k :: 0 <= k < last ==> helpers[k] == helpers[..last][k];
    } else if others != {} {
      var other :| other in others;
      pid := FreshAmong(helpers, others - {other});
      pid := if pid <= other then other + 1 else pid;
      assert forall o :: o in others && o != other ==> o in others - {other};
    } else {
      pid := 0;
    }
  }

  lemma FreshPid(s: Interface) returns (pid: nat)
    ensures !PidAlive(s, pid)
  {
    pid := FreshAmong(s.helpers, s.others.Keys);
    assert pid in s.others ==> pid in s.others.Keys;
  }

  // ---- a predecessor that still has files to remove ------------------------------------------------------

  /** Helper `h` has removed its socket path and its pid path, whoever wrote what is there. */
  function Robbed(s: Interface, h: nat): Interface
    requires h < |s.helpers|
  {
    SetLife(s, h, PidGone).(socket := if s.helpers[h].life.Reported? then None else s.socket, pid := None)
  }

  lemma Robs(s: Interface, h: nat)
    requires h < |s.helpers| && (s.helpers[h].life.Reported? || s.helpers[h].life.SocketGone?)
    ensures Leads(s, Robbed(s, h))
  {
    hide Leads, PidAlive, PidIsOurs;
    Here(s);
    if s.helpers[h].life.Reported? {
      var half := SetLife(s, h, SocketGone).(socket := None);
      Then(s, s, Advance(h), half);
      assert half.helpers[h := half.helpers[h].(life := PidGone)] == Robbed(s, h).helpers;
      Then(s, half, Advance(h), Robbed(s, h));
    } else {
      Then(s, s, Advance(h), Robbed(s, h));
    }
  }

  /** A disconnect that is given up leaves no socket, if no live pid stands in its way. */
  lemma GivesUp(s: Interface)
    requires s.daemon.Free? && (s.pid.Some? ==> !PidAlive(s, s.pid.value))
    ensures Leads(s, s.(socket := None))
  {
    hide Leads, PidAlive, PidIsOurs;
    Here(s);
    var begun := DownBegun(s);
    Then(s, s, DownBegin, begun);
    Then(s, begun, Finish, s.(socket := None));
  }

  /**
    A spawn beside a helper that has yet to remove its files: some tidy
    continuation has two helpers at work.
   */
  lemma LateUnlinksBreakExclusion(s: Interface, pid: nat)
    requires Orderly(s) && Enabled(s, Spawn(pid)) && !NoUnlinks(s)
    ensures exists s' :: Leads(Apply(s, Spawn(pid)), s') && !Exclusive(s')
  {
    hide Leads, PidAlive, PidIsOurs;
    var n := |s.helpers|;
    var start, base := Apply(s, Spawn(pid)), s.(daemon := UpWaiting);
    var up := Up(base, pid);
    ComesUp(base, pid);
    Robs(up, n - 1);
    LeadsOn(start, up, Robbed(up, n - 1));
    GivesUp(Robbed(up, n - 1));
    var alone := Robbed(up, n - 1).(socket := None);
    LeadsOn(start, Robbed(up, n - 1), alone);
    assert alone.helpers[n] == Helper(pid, Running);
    var third := FreshPid(alone);
    Spawns(alone, third);
    LeadsOn(start, alone, Forked(alone, third));
    SecondHolds(start, alone, third, n);
  }

  /** Beside a helper at work another one gets to work. */
  lemma SecondHolds(start: Interface, s: Interface, pid: nat, n: nat)
    requires n < |s.helpers| && HoldsNetwork(s.helpers[n].life) && Leads(start, Forked(s, pid))
    ensures exists s' :: Leads(start, s') && !Exclusive(s')
  {
    hide Leads;
    var base, m := Unlinked(s, true, true, true).(daemon := UpWaiting), |s.helpers|;
    Configures(base, pid);
    var end := With(base, pid, Named).(socket := Some(m), name := Some(m));
    LeadsOn(start, Forked(s, pid), end);
    assert end.helpers[n] == s.helpers[n] && end.helpers[m] == Helper(pid, Named);
  }

  // ---- a cleanup status that could not be removed --------------------------------------------------------

  /** A spawn over an old "ok": some tidy continuation has a disconnect confirmed while the helper runs on. */
  lemma OldStatusConfirms(s: Interface, pid: nat)
    requires Orderly(s) && Enabled(s, Spawn(pid)) && s.cleanup.Some? && s.cleanup.value.ok
    ensures exists s' :: Leads(Apply(s, Spawn(pid)), s') && !TrulyDown(s')
  {
    hide Leads;
    var n := |s.helpers|;
    var start, base := Apply(s, Spawn(pid)), s.(daemon := UpWaiting);
    var up := Up(base, pid);
    ComesUp(base, pid);
    assert up.helpers[n] == Helper(pid, Running);
    assert PidIsOurs(up, pid);
    var waiting := up.(socket := None, daemon := DownWaiting(up.name));
    Then(start, up, DownBegin, waiting);
    var confirmed := waiting.(daemon := DownConfirmed(s.cleanup.value.from, up.name));
    Then(start, waiting, DownRead, confirmed);
    assert confirmed.helpers[n] == Helper(pid, Running);
  }

  // ---- the daemon dies during a start -----------------------------------------------------------------------

  /** The first `n` helpers are gone for good. */
  function Retired(helpers: seq<Helper>, n: nat): seq<Helper>
    requires n <= |helpers|
  {
    seq(|helpers|, i requires 0 <= i < |helpers| => if i < n then helpers[i].(life := Exited) else helpers[i])
  }

  lemma {:induction false} Retires(s: Interface, n: nat)
    requires n <= |s.helpers|
    ensures Leads(s, s.(helpers := Retired(s.helpers, n)))
  {
    hide Leads, PidAlive, PidIsOurs;
    if n == 0 {
      assert Retired(s.helpers, 0) == s.helpers;
      Here(s);
    } else {
      Retires(s, n - 1);
      var before, after := s.(helpers := Retired(s.helpers, n - 1)), s.(helpers := Retired(s.helpers, n));
      if s.helpers[n - 1].life.Exited? {
        assert after.helpers == before.helpers;
      } else {
        assert before.helpers[n - 1 := before.helpers[n - 1].(life := Exited)] == after.helpers;
        Then(s, before, Crash(n - 1), after);
      }
    }
  }

  /** The process of that pid ends, if it is none of the helpers. */
  lemma OtherEnds(s: Interface, p: nat)
    ensures Leads(s, s.(others := s.others - {p}))
  {
    hide Leads, PidAlive, PidIsOurs;
    Here(s);
    if p in s.others {
      Then(s, s, OtherExits(p), s.(others := s.others - {p}));
    } else {
      assert s.others - {p} == s.others;
    }
  }

  /** No pid on file is alive any more, and no helper but the latest. */
  lemma PidDies(s: Interface) returns (s': Interface)
    requires s.helpers != [] && s.daemon.Free? && !OnFile(s)
    ensures Leads(s, s') && s'.daemon.Free? && (s'.pid.Some? ==> !PidAlive(s', s'.pid.value))
    ensures s'.helpers == Retired(s.helpers, |s.helpers| - 1)
  {
    hide Leads;
    Retires(s, |s.helpers| - 1);
    s' := s.(helpers := Retired(s.helpers, |s.helpers| - 1));
    if s.pid.Some? {
      OtherEnds(s', s.pid.value);
      LeadsOn(s, s', s'.(others := s'.others - {s.pid.value}));
      s' := s'.(others := s'.others - {s.pid.value});
    }
  }

  /** An early helper goes on until it holds network state. */
  lemma OrphanHolds(start: Interface, s: Interface, h: nat) returns (s': Interface)
    requires Leads(start, s) && h < |s.helpers| && Early(s.helpers[h].life)
    ensures Leads(start, s') && |s'.helpers| == |s.helpers| && HoldsNetwork(s'.helpers[h].life)
    ensures forall k :: 0 <= k < |s.helpers| && k != h ==> s'.helpers[k] == s.helpers[k]
  {
    hide Leads, PidAlive, PidIsOurs;
    s' := s;
    if s'.helpers[h].life.Starting? {
      Then(start, s', Advance(h), Apply(s', Advance(h)));
      s' := Apply(s', Advance(h));
    }
    if s'.helpers[h].life.Bound? {
      Then(start, s', Advance(h), Apply(s', Advance(h)));
      s' := Apply(s', Advance(h));
    }
  }

  /** With the daemon dead during a start that is not on file: some tidy continuation has two helpers at work. */
  lemma DeathDuringStartBreaksExclusion(s: Interface)
    requires Orderly(s) && Early(LatestLife(s)) && !OnFile(s)
    ensures exists s' :: Leads(Apply(s, DaemonDies), s') && !Exclusive(s')
  {
    hide Leads, PidAlive, PidIsOurs;
    var h, start := |s.helpers| - 1, Apply(s, DaemonDies);
    var dead := PidDies(start);
    GivesUp(dead);
    var quiet := dead.(socket := None);
    LeadsOn(start, dead, quiet);
    if quiet.pid.Some? {
      SamePids(dead, quiet, quiet.pid.value);
    }
    var pid := FreshPid(quiet);
    Spawns(quiet, pid);
    LeadsOn(start, quiet, Forked(quiet, pid));
    assert Forked(quiet, pid).helpers[h] == s.helpers[h];
    var s1 := OrphanHolds(start, Forked(quiet, pid), h);
    var s2 := OrphanHolds(start, s1, h + 1);
    assert s2.helpers[h] == s1.helpers[h];
  }

  // ---- exactly ----------------------------------------------------------------------------------------------

  /** The handshake does what it is for. */
  ghost predicate Sound(s: Interface) {
    Exclusive(s) && TrulyDown(s)
  }

  lemma OrderlySound(s: Interface)
    requires Orderly(s)
    ensures Sound(s)
  {
    hide PidAlive, PidIsOurs;
  }

  lemma UntidyBreaks(s: Interface, step: Step)
    requires Orderly(s) && Enabled(s, step) && !Tidy(s, step)
    ensures exists s' :: Leads(Apply(s, step), s') && !Sound(s')
  {
    hide Leads, Orderly, NoUnlinks, Exclusive, TrulyDown, Early;
    if step.DaemonDies? {
      DeathDuringStartBreaksExclusion(s);
      var s' :| Leads(Apply(s, step), s') && !Exclusive(s');
      assert !Sound(s');
    } else if !NoUnlinks(s) {
      LateUnlinksBreakExclusion(s, step.pid);
      var s' :| Leads(Apply(s, step), s') && !Exclusive(s');
      assert !Sound(s');
    } else {
      OldStatusConfirms(s, step.pid);
      var s' :| Leads(Apply(s, step), s') && !TrulyDown(s');
      assert !Sound(s');
    }
  }

  /**
    From every state that tidy runs lead to: a step leaves every tidy continuation
    exclusive and truly confirmed if and only if it is tidy.
   */
  lemma TidyExactly(s: Interface, step: Step)
    requires Reached(s) && Enabled(s, step)
    ensures Tidy(s, step) <==> forall s' :: Leads(Apply(s, step), s') ==> Sound(s')
  {
    hide Leads, Orderly, Enabled, Apply, Tidy, Sound, Reached;
    ReachedOrderly(s);
    if Tidy(s, step) {
      TidyStep(s, step);
      forall s' | Leads(Apply(s, step), s')
        ensures Sound(s')
      {
        LeadsOrderly(Apply(s, step), s');
        OrderlySound(s');
      }
    } else {
      UntidyBreaks(s, step);
    }
  }

  // ---- untidy steps occur -------------------------------------------------------------------------------------

  const FIRST := Helper(1, Reported)

  /** After a disconnect that the first helper confirmed, with that helper still about to remove its files. */
  const LINGERING: Interface := NOTHING.(helpers := [FIRST])

  lemma FirstUp()
    ensures Leads(NOTHING,
                  NOTHING.(helpers := [Helper(1, Running)], socket := Some(0), pid := Some(1), name := Some(0)))
  {
    hide Leads;
    StartsUp(NOTHING, 1);
    assert NOTHING.helpers + [Helper(1, Running)] == [Helper(1, Running)];
  }

  /** A disconnect has removed the socket, and the helper has reported. */
  const WAITING: Interface := NOTHING.(helpers := [Helper(1, Running)], pid := Some(1), name := Some(0),
                                       daemon := DownWaiting(Some(0)))

  lemma DisconnectBegins()
    ensures Leads(NOTHING, WAITING)
  {
    hide Leads;
    var up := NOTHING.(helpers := [Helper(1, Running)], socket := Some(0), pid := Some(1), name := Some(0));
    FirstUp();
    assert PidIsOurs(up, 1) by { assert up.helpers[0].pid == 1; }
    Then(NOTHING, up, DownBegin, WAITING);
  }

  lemma HelperReports()
    ensures Leads(WAITING, WAITING.(helpers := [FIRST], cleanup := Some(Status(0, true))))
  {
    hide Leads, PidAlive, PidIsOurs;
    var stopping := WAITING.(helpers := [Helper(1, Stopping)]);
    var released := WAITING.(helpers := [Helper(1, Released(true))]);
    Here(WAITING);
    assert [Helper(1, Running)][0 := Helper(1, Stopping)] == [Helper(1, Stopping)];
    Then(WAITING, WAITING, Advance(0), stopping);
    assert [Helper(1, Stopping)][0 := Helper(1, Released(true))] == [Helper(1, Released(true))];
    Then(WAITING, stopping, Release(0, true), released);
    assert [Helper(1, Released(true))][0 := FIRST] == [FIRST];
    Then(WAITING, released, Report(0, true), WAITING.(helpers := [FIRST], cleanup := Some(Status(0, true))));
  }

  lemma DisconnectWhileLingering()
    ensures Leads(NOTHING, LINGERING)
  {
    hide Leads, PidAlive, PidIsOurs;
    var reported := WAITING.(helpers := [FIRST], cleanup := Some(Status(0, true)));
    var confirmed := reported.(daemon := DownConfirmed(0, Some(0)));
    var done := LINGERING.(daemon := DownDone(Confirmed(0, Some(0))));
    DisconnectBegins();
    HelperReports();
    LeadsOn(NOTHING, WAITING, reported);
    Then(NOTHING, reported, DownRead, confirmed);
    Then(NOTHING, confirmed, DownUnlink(true, true, true), done);
    Then(NOTHING, done, Finish, LINGERING);
  }

  /** The daemon is about to start another helper. */
  lemma ReadyToSpawn(s: Interface, statusGone: bool)
    requires Leads(NOTHING, s) && s.daemon.Free? && s.socket.None? && s.pid.None?
    ensures Reached(Unlinked(s, true, true, statusGone).(daemon := UpUnlinked))
  {
    hide Leads;
    var checked := s.(daemon := UpChecked);
    Then(NOTHING, s, UpBegin, checked);
    Then(NOTHING, checked, UpUnlink(true, true, statusGone),
         Unlinked(s, true, true, statusGone).(daemon := UpUnlinked));
  }

  /** A tidy run from nothing leads to a spawn beside a helper that has yet to remove its files. */
  lemma LateUnlinksReachable()
    ensures exists s :: Reached(s) && Enabled(s, Spawn(2)) && !NoUnlinks(s)
  {
    hide Reached, Leads;
    DisconnectWhileLingering();
    ReadyToSpawn(LINGERING, true);
    var s := LINGERING.(daemon := UpUnlinked);
    assert s.helpers[0] == FIRST;
    assert !PidAlive(s, 2);
  }

  /** The first helper went down on its own and left its status. */
  const LEFT_STATUS: Interface := NOTHING.(helpers := [Helper(1, Exited)], cleanup := Some(Status(0, true)))

  lemma StatusLeftBehind()
    ensures Leads(NOTHING, LEFT_STATUS)
  {
    hide Leads;
    var up := NOTHING.(helpers := [Helper(1, Running)], socket := Some(0), pid := Some(1), name := Some(0));
    var stopping := up.(helpers := [Helper(1, Stopping)]);
    var released := up.(helpers := [Helper(1, Released(true))]);
    var reported := up.(helpers := [FIRST], cleanup := Some(Status(0, true)));
    var t1 := reported.(helpers := [Helper(1, SocketGone)], socket := None);
    var t2 := t1.(helpers := [Helper(1, PidGone)], pid := None);
    FirstUp();
    assert [Helper(1, Running)][0 := Helper(1, Stopping)] == [Helper(1, Stopping)];
    Then(NOTHING, up, Advance(0), stopping);
    assert [Helper(1, Stopping)][0 := Helper(1, Released(true))] == [Helper(1, Released(true))];
    Then(NOTHING, stopping, Release(0, true), released);
    assert [Helper(1, Released(true))][0 := FIRST] == [FIRST];
    Then(NOTHING, released, Report(0, true), reported);
    assert [FIRST][0 := Helper(1, SocketGone)] == [Helper(1, SocketGone)];
    Then(NOTHING, reported, Advance(0), t1);
    assert [Helper(1, SocketGone)][0 := Helper(1, PidGone)] == [Helper(1, PidGone)];
    Then(NOTHING, t1, Advance(0), t2);
    assert [Helper(1, PidGone)][0 := Helper(1, Exited)] == [Helper(1, Exited)];
    Then(NOTHING, t2, Advance(0), LEFT_STATUS);
  }

  /** One leads to a spawn over an old "ok". */
  lemma OldStatusReachable()
    ensures exists s :: Reached(s) && Enabled(s, Spawn(2)) && s.cleanup.Some? && s.cleanup.value.ok
  {
    hide Reached, Leads;
    StatusLeftBehind();
    ReadyToSpawn(LEFT_STATUS, false);
    var s := LEFT_STATUS.(daemon := UpUnlinked);
    assert !PidAlive(s, 2) by { assert s.helpers[0].life.Exited?; }
  }

  /** And one to where the daemon can die during a start that is not on file. */
  lemma DeathDuringStartReachable()
    ensures exists s :: Reached(s) && Early(LatestLife(s)) && !OnFile(s)
  {
    hide Leads;
    Spawns(NOTHING, 1);
    assert Reached(Forked(NOTHING, 1));
  }
}
