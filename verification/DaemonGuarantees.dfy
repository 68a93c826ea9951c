/** What the invariant says about the store, its records and the answers requests get. */
module DaemonGuarantees {
  import opened Wrappers
  import opened Records
  import opened Daemon
  import opened DaemonInvariant
  import opened DaemonEffects
  import opened DaemonSections
  import opened DaemonSafety

  // ---- uniqueness -----------------------------------------------------------------------------

  /** No two records share an identity or an interface, forced adds or not. */
  lemma RecordsDistinct(lang: Language, s: State, a: ConnectionId, b: ConnectionId)
    requires Lawful(lang) && Reachable(lang, s)
    requires a in s.shared.records && b in s.shared.records && a != b
    ensures var r, q := s.shared.records[a], s.shared.records[b];
      !(r.fingerprint == q.fingerprint && r.global == q.global && r.owner == q.owner) && r.interface != q.interface
  {
    hide Lawful, Reachable, ThreadOk;
    ReachableInv(lang, s);
    assert Apart(s.shared.forced, s.shared.records[a], s.shared.records[b]);
  }

  /** Names are unique per scope and owner as long as no forced add carried a name. */
  lemma NamesDistinct(lang: Language, s: State, a: ConnectionId, b: ConnectionId)
    requires Lawful(lang) && Reachable(lang, s) && !s.shared.forced
    requires a in s.shared.records && b in s.shared.records && a != b && s.shared.records[b].name.Some?
    ensures var r, q := s.shared.records[a], s.shared.records[b];
      !(r.name == q.name && r.global == q.global && r.owner == q.owner)
  {
    hide Lawful, Reachable, ThreadOk;
    ReachableInv(lang, s);
    assert Apart(s.shared.forced, s.shared.records[a], s.shared.records[b]);
  }

  /** Every stored name is short, of the allowed characters, and no id. */
  lemma NamesAreValid(lang: Language, s: State, id: ConnectionId)
    requires Lawful(lang) && Reachable(lang, s) && id in s.shared.records && s.shared.records[id].name.Some?
    ensures var name := s.shared.records[id].name.value;
      && 0 < |name| <= 64 && ParseId(name).None?
      && forall i :: 0 <= i < |name| ==>
           var c := name[i];
           'a' <= c <= 'z' || '0' <= c <= '9' || c == '-' || c == '_' || c == '.'
  {
    hide Reachable, ThreadOk, Inv, ParseId;
    ReachableInv(lang, s);
    RecordCreated(lang, s, id);
  }

  /** `create` never overwrites: when it writes, the id never named a record. */
  lemma CreateIsFresh(lang: Language, s: State, t: nat)
    requires Lawful(lang) && Reachable(lang, s) && PhaseOf(s, t).AddCreate?
    ensures PhaseOf(s, t).next.id !in s.shared.records && PhaseOf(s, t).next.id !in s.shared.created
  {
    hide Lawful, Reachable, DataOk, AccessPart, RewritePart, StoredPart, SocketPart, ReplyPart;
    ReachableInv(lang, s);
    assert ThreadOk(lang, s.shared, s.threads[t]);
  }

  // ---- what no step does --------------------------------------------------------------------------

  /** The locks behind a step: those of the thread that runs, none for any other step. */
  function StepLocks(s: State, step: Step): Locks {
    if step.Run? then LocksOf(PhaseOf(s, step.thread)) else Locks(false, None)
  }

  /** Every step changes the shared state only as its locks permit. */
  lemma StepGuarantee(lang: Language, s: State, step: Step)
    requires Inv(lang, s) && Lawful(lang) && Enabled(s, step)
    ensures Guarantee(StepLocks(s, step), s.shared, Apply(lang, s, step).shared)
  {
    hide DataOk, ThreadOk, Guarantee, Lawful, Section, LocksOf, HoldsNetwork, EnvironmentStep, Within, Exclusive;
    match step
    case Run(t, c) => EverySectionOk(lang, s.shared, s.threads[t], c);
    case Arrive(_, _, _) => Unchanged(lang, Locks(false, None), s.shared);
    case Acquire(_) => Unchanged(lang, Locks(false, None), s.shared);
    case Stop(_) => Unchanged(lang, Locks(false, None), s.shared);
    case _ => EnvironmentPreserves(lang, s, step);
  }

  lemma StepFacts(l: Locks, d: Shared, d': Shared, id: ConnectionId)
    requires Guarantee(l, d, d')
    ensures id in d.created ==> id in d'.created && (id !in d.records ==> id !in d'.records)
    ensures id in d.records && id in d'.records ==> SameOwner(d.records[id], d'.records[id])
    ensures HistoryGrows(d, d')
  {
  }

  /** A removed record never comes back, whatever stale copies other threads hold. */
  lemma {:induction false} NeverResurrected(lang: Language, s: State, steps: seq<Step>, id: ConnectionId)
    requires Inv(lang, s) && Lawful(lang) && Possible(lang, s, steps)
    requires id in s.shared.created && id !in s.shared.records
    ensures id in End(lang, s, steps).shared.created && id !in End(lang, s, steps).shared.records
    decreases |steps|
  {
    hide Inv, Lawful, Enabled, Apply, Guarantee, StepLocks;
    if steps != [] {
      var next := Apply(lang, s, steps[0]);
      StepGuarantee(lang, s, steps[0]);
      StepFacts(StepLocks(s, steps[0]), s.shared, next.shared, id);
      StepKeeps(lang, s, steps[0]);
      NeverResurrected(lang, next, steps[1..], id);
    }
  }

  /** Id, scope, owner, interface and MTU override never change over a record's life. */
  lemma {:induction false} OwnershipFixed(lang: Language, s: State, steps: seq<Step>, id: ConnectionId)
    requires Inv(lang, s) && Lawful(lang) && Possible(lang, s, steps)
    requires id in s.shared.records && id in End(lang, s, steps).shared.records
    ensures SameOwner(s.shared.records[id], End(lang, s, steps).shared.records[id])
    decreases |steps|
  {
    hide Inv, Lawful, Enabled, Apply, Guarantee, StepLocks, SameOwner;
    if steps == [] {
      SameOwnerReflexive(s.shared.records[id]);
    } else {
      var next := Apply(lang, s, steps[0]);
      RecordCreated(lang, s, id);
      StepGuarantee(lang, s, steps[0]);
      StepFacts(StepLocks(s, steps[0]), s.shared, next.shared, id);
      StepKeeps(lang, s, steps[0]);
      if id !in next.shared.records {
        NeverResurrected(lang, next, steps[1..], id);
      } else {
        OwnershipFixed(lang, next, steps[1..], id);
        SameOwnerTransitive(s.shared.records[id], next.shared.records[id],
                            End(lang, next, steps[1..]).shared.records[id]);
      }
    }
  }

  lemma SameOwnerReflexive(r: Record)
    ensures SameOwner(r, r)
  {
  }

  lemma SameOwnerTransitive(a: Record, b: Record, c: Record)
    requires SameOwner(a, b) && SameOwner(b, c)
    ensures SameOwner(a, c)
  {
  }

  lemma RecordCreated(lang: Language, s: State, id: ConnectionId)
    requires Inv(lang, s) && id in s.shared.records
    ensures RecordOk(lang, s.shared, id, s.shared.records[id])
  {
    hide ThreadOk;
  }

  /** Root may use every connection, anyone else only an own one that is not global. */
  predicate MayUse(r: Record, uid: nat) {
    uid == 0 || (!r.global && r.owner == Some(uid))
  }

  /** The access check made on the accept thread still holds when the worker has the lock. */
  lemma AccessStillHolds(lang: Language, s: State, t: nat)
    requires Lawful(lang) && Reachable(lang, s) && AccessOf(PhaseOf(s, t)).Some?
    ensures var (id, uid) := AccessOf(PhaseOf(s, t)).value;
      id in s.shared.records ==> MayUse(s.shared.records[id], uid)
  {
    hide Lawful, Reachable, DataOk, AddPart, RewritePart, StoredPart, SocketPart, ReplyPart;
    ReachableInv(lang, s);
    assert ThreadOk(lang, s.shared, PhaseOf(s, t));
  }

  // ---- self-consistency ------------------------------------------------------------------------------

  /** Every record's text parses to its stored form and fingerprint, and its links validate as they are. */
  lemma RecordsSelfConsistent(lang: Language, s: State, id: ConnectionId)
    requires Lawful(lang) && Reachable(lang, s) && id in s.shared.records
    ensures var r := s.shared.records[id];
      && lang.parse(r.rawConf) == Some(r.config) && lang.fingerprint(r.config) == r.fingerprint
      && lang.validLinks(r.links, r.config) && lang.admitted(r.links, r.config) == r.links
      && r.id == id && r.interface == InterfaceName(id)
  {
    hide Reachable, ThreadOk, Inv;
    ReachableInv(lang, s);
    RecordCreated(lang, s, id);
  }

  /** `reparse_and_verify` never reports a stale record, and a mismatch is only ever the work of a failed stat. */
  lemma NeverStale(lang: Language, s: State, t: nat)
    requires Lawful(lang) && Reachable(lang, s) && PhaseOf(s, t).Done?
    ensures PhaseOf(s, t).reply != Stale
    ensures PhaseOf(s, t).reply.Mismatch? ==> PhaseOf(s, t).reply.id in s.shared.statFaults
  {
    hide Lawful, Reachable, DataOk, AddPart, AccessPart, RewritePart, StoredPart, SocketPart;
    ReachableInv(lang, s);
    assert ThreadOk(lang, s.shared, PhaseOf(s, t));
  }

  /** No stat of a socket fails in these steps. */
  predicate StatsWork(steps: seq<Step>) {
    forall i :: 0 <= i < |steps| && steps[i].Run? ==> !steps[i].choice.statFails
  }

  lemma SectionFaults(lang: Language, d: Shared, p: Phase, c: Choice)
    requires Runnable(p) && !c.statFails
    ensures Section(lang, d, p, c).0.statFaults == d.statFaults
  {
    hide Section, AddSection;
    if p.AddIndexed? {
      AddIsSection(lang, d, p, c);
      AddFaults(lang, d, p.add, c);
    } else if p.UpLoad? || p.ConnectIntent? || StoredOf(p).Some? {
      UpFaults(lang, d, p, c);
    } else {
      OtherFaults(lang, d, p, c);
    }
  }

  lemma AddFaults(lang: Language, d: Shared, a: Add, c: Choice)
    ensures AddSection(lang, d, a, c).0.statFaults == d.statFaults
  {
    hide NameTaken, FoundIdentity, NewRecord, Resubmitted, Effective;
  }

  lemma UpFaults(lang: Language, d: Shared, p: Phase, c: Choice)
    requires Runnable(p) && (p.UpLoad? || p.ConnectIntent? || StoredOf(p).Some?)
    ensures Section(lang, d, p, c).0.statFaults == d.statFaults
  {
    hide HelperOn, Reparses;
  }

  lemma OtherFaults(lang: Language, d: Shared, p: Phase, c: Choice)
    requires Runnable(p) && !c.statFails && !p.AddIndexed? && !p.UpLoad? && !p.ConnectIntent? && StoredOf(p).None?
    ensures Section(lang, d, p, c).0.statFaults == d.statFaults
  {
    hide HelperOn, AddSection, Refreshed, FoundIdentity, Effective, Authorized, AuthReply, Elevates;
  }

  lemma {:induction false} WorkingStatsNoFaults(lang: Language, s: State, steps: seq<Step>)
    requires Possible(lang, s, steps) && StatsWork(steps)
    ensures End(lang, s, steps).shared.statFaults == s.shared.statFaults
    decreases |steps|
  {
    hide Section;
    if steps != [] {
      if steps[0].Run? {
        SectionFaults(lang, s.shared, PhaseOf(s, steps[0].thread), steps[0].choice);
      }
      WorkingStatsNoFaults(lang, Apply(lang, s, steps[0]), steps[1..]);
    }
  }

  /** In a run whose stats all work, the fingerprint-mismatch branch of `connect` is dead. */
  lemma MismatchNeedsFault(lang: Language, start: State, steps: seq<Step>, t: nat)
    requires Lawful(lang) && Init(start) && Possible(lang, start, steps) && StatsWork(steps)
    ensures var p := PhaseOf(End(lang, start, steps), t); p.Done? ==> !p.reply.Mismatch?
  {
    hide Lawful, Enabled, Apply, Possible, End, StatsWork;
    var s := End(lang, start, steps);
    assert Reachable(lang, s);
    WorkingStatsNoFaults(lang, start, steps);
    if PhaseOf(s, t).Done? {
      NeverStale(lang, s, t);
    }
  }

  /** A helper is launched from exactly what the store holds: text, fingerprint and every link. */
  lemma LaunchedAsStored(lang: Language, s: State, t: nat, c: Choice)
    requires Lawful(lang) && Reachable(lang, s) && PhaseOf(s, t).UpSpawn?
      && !HelperOn(s.shared, PhaseOf(s, t).stored.interface)
    ensures var id := PhaseOf(s, t).stored.id;
      var after := Apply(lang, s, Run(t, c)).shared;
      && id in s.shared.records && after.records == s.shared.records
      && |after.launches| == |s.shared.launches| + 1
      && var r := s.shared.records[id];
         && after.launches[|s.shared.launches|] == Launch(id, r.interface, r.fingerprint, r.rawConf, r.links)
         && |r.config.peers| == 1
  {
    hide Reachable, AddPart, AccessPart, RewritePart, SocketPart, ReplyPart, Exclusive, DataOk;
    ReachableInv(lang, s);
    assert ThreadOk(lang, s.shared, PhaseOf(s, t));
    var stored := PhaseOf(s, t).stored;
    RecordsSelfConsistent(lang, s, stored.id);
  }

  /**
    When `connect` returns Ok, whatever socket is on the interface belongs to a helper of the current
    configuration.
   */
  lemma ConnectedIsCurrent(lang: Language, s: State, t: nat)
    requires Lawful(lang) && Reachable(lang, s) && PhaseOf(s, t).UpOk?
    ensures var id := PhaseOf(s, t).stored.id;
      && id in s.shared.records && s.shared.records[id] == PhaseOf(s, t).stored
      && (InterfaceName(id) in s.shared.sockets ==>
            var n := s.shared.sockets[InterfaceName(id)];
            && n < |s.shared.launches| && s.shared.launches[n].interface == InterfaceName(id)
            && s.shared.launches[n].fingerprint == s.shared.records[id].fingerprint
            && lang.parse(s.shared.launches[n].rawConf).Some?
            && lang.fingerprint(lang.parse(s.shared.launches[n].rawConf).value) == s.shared.records[id].fingerprint)
  {
    hide Reachable, AddPart, AccessPart, RewritePart, ReplyPart, Exclusive, Lawful;
    ReachableInv(lang, s);
    assert ThreadOk(lang, s.shared, PhaseOf(s, t));
    var stored := PhaseOf(s, t).stored;
    RecordCreated(lang, s, stored.id);
    if InterfaceName(stored.id) in s.shared.sockets {
      assert LaunchOk(lang, s.shared.launches[s.shared.sockets[InterfaceName(stored.id)]]);
    }
  }
}
