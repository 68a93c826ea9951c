/**
  Runs of the daemon: the state before each step, the request a thread serves,
  and runs that obey a rule and can be put together piece by piece.
 */
module DaemonRuns {
  import opened Wrappers
  import opened Records
  import opened Daemon
  import opened DaemonInvariant
  import opened DaemonSafety

  // ---- runs by index --------------------------------------------------------------------------

  /** The state before step `k` of a run. */
  ghost function StateAt(lang: Language, s: State, steps: seq<Step>, k: nat): State
    requires Possible(lang, s, steps) && k <= |steps|
    decreases k
  {
    if k == 0 then s else StateAt(lang, Apply(lang, s, steps[0]), steps[1..], k - 1)
  }

  lemma {:induction false} StepAt(lang: Language, s: State, steps: seq<Step>, k: nat)
    requires Possible(lang, s, steps) && k < |steps|
    ensures Enabled(StateAt(lang, s, steps, k), steps[k])
    ensures StateAt(lang, s, steps, k + 1) == Apply(lang, StateAt(lang, s, steps, k), steps[k])
    decreases k
  {
    hide Enabled, Apply;
    var next := Apply(lang, s, steps[0]);
    if k == 0 {
      assert StateAt(lang, next, steps[1..], 0) == next;
    } else {
      StepAt(lang, next, steps[1..], k - 1);
    }
  }

  lemma {:induction false} EndAt(lang: Language, s: State, steps: seq<Step>)
    requires Possible(lang, s, steps)
    ensures StateAt(lang, s, steps, |steps|) == End(lang, s, steps)
    decreases |steps|
  {
    hide Enabled, Apply;
    if steps != [] {
      EndAt(lang, Apply(lang, s, steps[0]), steps[1..]);
    }
  }

  lemma {:induction false} InvAt(lang: Language, s: State, steps: seq<Step>, k: nat)
    requires Inv(lang, s) && Lawful(lang) && Possible(lang, s, steps) && k <= |steps|
    ensures Inv(lang, StateAt(lang, s, steps, k))
    decreases k
  {
    hide Inv, Lawful, Enabled, Apply;
    if k > 0 {
      InvAt(lang, s, steps, k - 1);
      StepAt(lang, s, steps, k - 1);
      StepKeeps(lang, StateAt(lang, s, steps, k - 1), steps[k - 1]);
    }
  }

  lemma {:induction false} PrefixAt(lang: Language, s: State, steps: seq<Step>, k: nat)
    requires Possible(lang, s, steps) && k <= |steps|
    ensures Possible(lang, s, steps[..k]) && End(lang, s, steps[..k]) == StateAt(lang, s, steps, k)
    decreases k
  {
    hide Enabled, Apply;
    if k > 0 {
      assert steps[..k][1..] == steps[1..][..k - 1];
      PrefixAt(lang, Apply(lang, s, steps[0]), steps[1..], k - 1);
    }
  }

  lemma ReachableAt(lang: Language, start: State, steps: seq<Step>, k: nat)
    requires Init(start) && Possible(lang, start, steps) && k <= |steps|
    ensures Reachable(lang, StateAt(lang, start, steps, k))
  {
    hide Possible, End, StateAt;
    PrefixAt(lang, start, steps, k);
  }

  /** The request thread `t` is serving before step `k`: the last one that arrived on it. */
  function RequestBefore(steps: seq<Step>, k: nat, t: nat): Option<Request>
    requires k <= |steps|
  {
    if k == 0 then None
    else if steps[k - 1].Arrive? && steps[k - 1].thread == t then Some(steps[k - 1].request)
    else RequestBefore(steps, k - 1, t)
  }

  /** The phase of thread `t` before step `k`. */
  ghost function PhaseAt(lang: Language, s: State, steps: seq<Step>, k: nat, t: nat): Phase
    requires Possible(lang, s, steps) && k <= |steps|
  {
    PhaseOf(StateAt(lang, s, steps, k), t)
  }

  /** The phase after an own step that is not the arrival of a request. */
  ghost predicate Moves(lang: Language, s: State, step: Step, t: nat)
    requires Enabled(s, step)
  {
    var p, p' := PhaseOf(s, t), PhaseOf(Apply(lang, s, step), t);
    || p' == p || p'.Idle?
    || (step == Acquire(t) && Wants(p).Some? && p' == Acquired(p))
    || (step.Run? && step.thread == t && Runnable(p) && p' == Section(lang, s.shared, p, step.choice).1)
  }

  /** A thread's phase changes only by its own steps. */
  lemma PhaseMoves(lang: Language, s: State, step: Step, t: nat)
    requires Enabled(s, step)
    ensures step.Arrive? && step.thread == t ==> PhaseOf(Apply(lang, s, step), t) == FirstPhase(step.request, step.uid)
    ensures !(step.Arrive? && step.thread == t) ==> Moves(lang, s, step, t)
  {
    hide Section, FirstPhase, Acquired, Wants, EnvironmentStep, Accepted;
  }

  // ---- what a rule forbids ----------------------------------------------------------------------

  /** A resubmission that makes the record automatic, which also clears the flag. */
  predicate Lands(p: Phase) {
    (p.AddWantConn? || p.AddHaveConn?) && p.moves && p.next.mode == Automatic
  }

  /** The sections that may bring a flagged connection back: a user connect, or a mode change landing on Automatic. */
  predicate Restores(d: Shared, p: Phase, id: ConnectionId) {
    || (p.ConnectIntent? && p.id == id && p.reason.User?)
    || (p.AddHaveConn? && p.next.id == id && Lands(p))
    || (p.EditLocked? && p.id == id && p.edit.SetMode? && p.edit.mode == Automatic
        && id in d.records && d.records[id].mode != Automatic)
  }

  /** A setting of a record that its owner changes while other requests are under way. */
  datatype Setting = Mode | Dns | Links

  /** The sections whose own request changes this setting of `id`. */
  predicate Sets(p: Phase, id: ConnectionId, setting: Setting) {
    match setting
    case Mode => (p.EditLocked? && p.id == id && p.edit.SetMode?) || (p.AddHaveConn? && p.next.id == id && p.moves)
    case Dns => p.EditLocked? && p.id == id && p.edit.SetDns?
    case Links => (p.EditLocked? && p.id == id && p.edit.SetLinks?) || (p.RefreshWrite? && p.next.id == id)
  }

  /** What every step of a run may be required to respect. */
  datatype Rule =
    | Anything
    | Calm(id: ConnectionId)                      // nothing restores the connection
    | Leaves(id: ConnectionId, setting: Setting)  // nothing asks for another value of the setting
    | Unreadable                                  // some record is unreadable all along
    | Formless(thread: nat)                       // no request on this thread carries a form

  /** The admin form a request carries. */
  function FormOf(request: Request): Form {
    match request
    case AddRequest(a) => a.form
    case RefreshRequest(_, _, _, form) => form
    case RemoveRequest(_, form) => form
    case EditRequest(_, edit) => if edit.SetMode? then edit.form else Absent
    case _ => Absent
  }

  /** Whether the rule lets a thread in this phase run its section. */
  predicate AllowsRun(rule: Rule, d: Shared, p: Phase) {
    match rule
    case Calm(id) => !Restores(d, p, id)
    case Leaves(id, setting) => !Sets(p, id, setting)
    case _ => AllowsOther(rule, d)
  }

  predicate AllowsArrival(rule: Rule, d: Shared, t: nat, request: Request) {
    AllowsOther(rule, d) && (rule.Formless? && rule.thread == t ==> FormOf(request).Absent?)
  }

  predicate AllowsOther(rule: Rule, d: Shared) {
    rule.Unreadable? ==> d.unreadable != {}
  }

  predicate Allows(rule: Rule, s: State, step: Step) {
    match step
    case Run(t, _) => AllowsRun(rule, s.shared, PhaseOf(s, t))
    case Arrive(t, request, _) => AllowsArrival(rule, s.shared, t, request)
    case _ => AllowsOther(rule, s.shared)
  }

  /** Every step of the run respects the rule. */
  ghost predicate Obeys(lang: Language, rule: Rule, s: State, steps: seq<Step>)
    requires Possible(lang, s, steps)
    decreases |steps|
  {
    steps != [] ==> Allows(rule, s, steps[0]) && Obeys(lang, rule, Apply(lang, s, steps[0]), steps[1..])
  }

  // ---- runs, piece by piece ---------------------------------------------------------------------

  /** Some run that respects the rule leads from `s` to `s'`. */
  ghost predicate Goes(lang: Language, rule: Rule, s: State, s': State) {
    exists steps :: Possible(lang, s, steps) && Obeys(lang, rule, s, steps) && End(lang, s, steps) == s'
  }

  lemma {:induction false} RunsAppend(lang: Language, rule: Rule, s: State, a: seq<Step>, b: seq<Step>)
    requires Possible(lang, s, a) && Obeys(lang, rule, s, a)
    requires Possible(lang, End(lang, s, a), b) && Obeys(lang, rule, End(lang, s, a), b)
    ensures Possible(lang, s, a + b) && Obeys(lang, rule, s, a + b)
    ensures End(lang, s, a + b) == End(lang, End(lang, s, a), b)
    decreases |a|
  {
    hide Enabled, Apply, Allows;
    if a == [] {
      assert a + b == b;
    } else {
      assert (a + b)[1..] == a[1..] + b;
      RunsAppend(lang, rule, Apply(lang, s, a[0]), a[1..], b);
    }
  }

  lemma GoesOn(lang: Language, rule: Rule, s: State, middle: State, s': State)
    requires Goes(lang, rule, s, middle) && Goes(lang, rule, middle, s')
    ensures Goes(lang, rule, s, s')
  {
    hide Possible, Obeys, End;
    var a :| Possible(lang, s, a) && Obeys(lang, rule, s, a) && End(lang, s, a) == middle;
    var b :| Possible(lang, middle, b) && Obeys(lang, rule, middle, b) && End(lang, middle, b) == s';
    RunsAppend(lang, rule, s, a, b);
  }

  lemma {:induction false} AnythingGoes(lang: Language, s: State, steps: seq<Step>)
    requires Possible(lang, s, steps)
    ensures Obeys(lang, Anything, s, steps)
    decreases |steps|
  {
    hide Enabled, Apply;
    if steps != [] {
      AnythingGoes(lang, Apply(lang, s, steps[0]), steps[1..]);
    }
  }

  /** Every run, whatever rule it respects, leads from reachable states to reachable states. */
  lemma ReachesOn(lang: Language, rule: Rule, s: State, s': State)
    requires Reachable(lang, s) && Goes(lang, rule, s, s')
    ensures Reachable(lang, s')
  {
    hide Possible, Obeys, End;
    var start, a :| Init(start) && Possible(lang, start, a) && End(lang, start, a) == s;
    var b :| Possible(lang, s, b) && Obeys(lang, rule, s, b) && End(lang, s, b) == s';
    AnythingGoes(lang, start, a);
    AnythingGoes(lang, s, b);
    RunsAppend(lang, Anything, start, a, b);
  }

  lemma StartReachable(lang: Language)
    ensures Reachable(lang, State(EMPTY_STORE, map[]))
  {
    var s := State(EMPTY_STORE, map[]);
    assert Init(s) && Possible(lang, s, []) && End(lang, s, []) == s;
  }

  lemma GoesStep(lang: Language, rule: Rule, s: State, step: Step)
    requires Enabled(s, step) && Allows(rule, s, step)
    ensures Goes(lang, rule, s, Apply(lang, s, step))
  {
    hide Enabled, Apply, Allows;
    var steps := [step];
    assert steps[1..] == [];
    assert Possible(lang, Apply(lang, s, step), []);
    assert Possible(lang, s, steps);
    assert Obeys(lang, rule, s, steps);
    assert End(lang, s, steps) == Apply(lang, s, step);
  }

  /** The state in which thread `t` has phase `p` and the others are as in `m`. */
  function At(d: Shared, m: map<nat, Phase>, t: nat, p: Phase): State {
    State(d, m[t := p])
  }

  /** The lock is free as far as the other threads are concerned. */
  ghost predicate FreeOf(m: map<nat, Phase>, t: nat, lock: Lock) {
    forall u :: u in m && u != t ==> !Holds(m[u], lock)
  }

  predicate IdleIn(m: map<nat, Phase>, t: nat) {
    t in m ==> m[t].Idle?
  }

  lemma MapSame<K, V>(m: map<K, V>, k: K)
    requires k in m
    ensures m[k := m[k]] == m
  {
  }

  lemma Arrives(lang: Language, rule: Rule, d: Shared, m: map<nat, Phase>, t: nat, request: Request, uid: nat)
    requires Accepted(d, request, uid) && IdleIn(m, t) && AllowsArrival(rule, d, t, request)
    ensures Goes(lang, rule, State(d, m), At(d, m, t, FirstPhase(request, uid)))
  {
    hide Goes, Accepted, FirstPhase, AllowsArrival;
    var s := State(d, m);
    GoesStep(lang, rule, s, Arrive(t, request, uid));
    assert Apply(lang, s, Arrive(t, request, uid)).threads == m[t := FirstPhase(request, uid)];
  }

  lemma Acquires(lang: Language, rule: Rule, d: Shared, m: map<nat, Phase>, t: nat, p: Phase)
    requires Wants(p).Some? && !Holds(p, Wants(p).value) && FreeOf(m, t, Wants(p).value)
    requires AllowsOther(rule, d)
    ensures Goes(lang, rule, At(d, m, t, p), At(d, m, t, Acquired(p)))
  {
    hide Goes, Wants, Acquired, Holds, AllowsOther;
    var s := At(d, m, t, p);
    GoesStep(lang, rule, s, Acquire(t));
    assert Apply(lang, s, Acquire(t)).threads == m[t := Acquired(p)];
  }

  lemma Runs(lang: Language, rule: Rule, d: Shared, m: map<nat, Phase>, t: nat, p: Phase, c: Choice)
    requires Runnable(p) && AllowsRun(rule, d, p)
    ensures Goes(lang, rule, At(d, m, t, p), At(Section(lang, d, p, c).0, m, t, Section(lang, d, p, c).1))
  {
    hide Goes, Section, AllowsRun;
    var s := At(d, m, t, p);
    GoesStep(lang, rule, s, Run(t, c));
    assert Apply(lang, s, Run(t, c)).threads == m[t := Section(lang, d, p, c).1];
  }

  /** Everything the world decides goes well. */
  function Good(id: ConnectionId): Choice {
    Choice(id, true, false, false)
  }

  /** An edit on a thread that is free to make it: up to the lock, and its one section. */
  lemma EditReachesLock(
      lang: Language, rule: Rule, d: Shared, m: map<nat, Phase>, t: nat, id: ConnectionId, edit: Edit, uid: nat)
    requires IdleIn(m, t) && FreeOf(m, t, Connection(id)) && AllowsArrival(rule, d, t, EditRequest(id, edit))
    ensures Goes(lang, rule, State(d, m), At(d, m, t, EditLocked(id, edit, uid)))
  {
    hide Goes, FreeOf;
    Arrives(lang, rule, d, m, t, EditRequest(id, edit), uid);
    Acquires(lang, rule, d, m, t, EditWantConn(id, edit, uid));
    GoesOn(lang, rule, State(d, m), At(d, m, t, EditWantConn(id, edit, uid)), At(d, m, t, EditLocked(id, edit, uid)));
  }

  lemma EditRuns(
      lang: Language, rule: Rule, d: Shared, m: map<nat, Phase>, t: nat, id: ConnectionId, edit: Edit, uid: nat)
    requires IdleIn(m, t) && FreeOf(m, t, Connection(id)) && AllowsArrival(rule, d, t, EditRequest(id, edit))
    requires AllowsRun(rule, d, EditLocked(id, edit, uid))
    ensures var (d', p) := EditSection(lang, d, id, edit, uid); Goes(lang, rule, State(d, m), At(d', m, t, p))
  {
    hide Goes, FreeOf, EditSection, AllowsArrival, AllowsRun, At;
    EditReachesLock(lang, rule, d, m, t, id, edit, uid);
    Runs(lang, rule, d, m, t, EditLocked(id, edit, uid), Good(id));
    var (d', p) := EditSection(lang, d, id, edit, uid);
    GoesOn(lang, rule, State(d, m), At(d, m, t, EditLocked(id, edit, uid)), At(d', m, t, p));
  }
}
