/**
  The strict listing (`load_all_strict`, src/privileged/connection_store.rs) and
  what an unreadable record stops: everything, except threads that had passed
  their listing before.
 */
module DaemonUnreadable {
  import opened Wrappers
  import opened BypassLinks
  import opened Records
  import opened Daemon
  import opened DaemonInvariant
  import opened DaemonEffects
  import opened DaemonSections
  import opened DaemonSafety
  import opened DaemonGuarantees
  import opened DaemonRuns
  import opened DaemonWitness
  import opened DaemonProgress

  /** The thread is past its strict listing and about to write a new record or a changed fingerprint. */
  predicate Deciding(p: Phase) {
    p.AddCreate? || RewriteOf(p).Some?
  }

  /** Nothing was created and no identity changed. */
  ghost predicate SameIdentities(d: Shared, d': Shared) {
    && d'.created == d.created
    && forall id :: id in d'.records ==> id in d.records && SameFixed(d.records[id], d'.records[id])
  }

  lemma SaveSameIdentities(d: Shared, next: Record)
    requires next.id in d.records && SameFixed(d.records[next.id], next)
    ensures SameIdentities(d, Save(d, next))
  {
  }

  /** While a record is unreadable, the strict listing lets nothing new past. */
  lemma ListingRefuses(lang: Language, d: Shared, p: Phase, c: Choice)
    requires Runnable(p) && !Deciding(p) && d.unreadable != {}
    ensures !Deciding(Section(lang, d, p, c).1)
  {
    hide Section, AddSection;
    if p.AddIndexed? {
      AddIsSection(lang, d, p, c);
      AddRefuses(lang, d, p.add, c);
    } else {
      OtherRefuses(lang, d, p, c);
    }
  }

  lemma AddRefuses(lang: Language, d: Shared, a: Add, c: Choice)
    requires d.unreadable != {}
    ensures !Deciding(AddSection(lang, d, a, c).1)
  {
    hide AddExisting, AddNew;
  }

  lemma OtherRefuses(lang: Language, d: Shared, p: Phase, c: Choice)
    requires Runnable(p) && !p.AddIndexed? && !Deciding(p) && d.unreadable != {}
    ensures !Deciding(Section(lang, d, p, c).1)
  {
    hide NameTaken, HelperOn, Reparses, AddSection, Save, ClearDead, DownEffect, Spawn, Authorized, Refreshed;
  }

  lemma UnlockedWrites(l: Locks, d: Shared, d': Shared)
    requires Guarantee(l, d, d') && !l.index
    ensures SameIdentities(d, d')
  {
  }

  lemma UndecidedWrites(lang: Language, d: Shared, p: Phase, c: Choice)
    requires Runnable(p) && !Deciding(p) && Lawful(lang) && DataOk(lang, d) && ThreadOk(lang, d, p)
    ensures SameIdentities(d, Section(lang, d, p, c).0)
  {
    hide Lawful, DataOk, Guarantee, ThreadOk, SameIdentities, Within, Section, LocksOf;
    if !HoldsIndex(p) {
      EverySectionOk(lang, d, p, c);
      LocksOfIndex(p);
      UnlockedWrites(LocksOf(p), d, Section(lang, d, p, c).0);
    } else {
      IndexedWrites(lang, d, p, c);
    }
  }

  lemma LocksOfIndex(p: Phase)
    ensures LocksOf(p).index <==> HoldsIndex(p)
  {
  }

  lemma IndexedWrites(lang: Language, d: Shared, p: Phase, c: Choice)
    requires Runnable(p) && !Deciding(p) && HoldsIndex(p) && ThreadOk(lang, d, p)
    ensures SameIdentities(d, Section(lang, d, p, c).0)
  {
    hide NameTaken, HelperOn, Reparses, NewOk, RefreshOk, AccessPart, SocketPart, ReplyPart, StoredPart;
    if p.AddHaveConn? {
      SaveSameIdentities(d, p.next);
    }
  }

  ghost predicate NoneDeciding(s: State) {
    forall t :: t in s.threads ==> !Deciding(s.threads[t])
  }

  lemma UnreadableStep(lang: Language, s: State, step: Step)
    requires Inv(lang, s) && Lawful(lang) && Enabled(s, step) && s.shared.unreadable != {} && NoneDeciding(s)
    ensures NoneDeciding(Apply(lang, s, step)) && SameIdentities(s.shared, Apply(lang, s, step).shared)
  {
    hide Lawful, DataOk, ThreadOk, Section, Exclusive;
    match step
    case Run(t, c) =>
      ListingRefuses(lang, s.shared, s.threads[t], c);
      UndecidedWrites(lang, s.shared, s.threads[t], c);
    case Acquire(t) => AcquiredUndecided(s.threads[t]);
    case Arrive(_, request, uid) =>
    case _ =>
  }

  lemma AcquiredUndecided(p: Phase)
    requires Wants(p).Some? && !Deciding(p)
    ensures !Deciding(Acquired(p))
  {
  }

  /**
    While a record is unreadable no record is created and no identity changes,
    provided no thread had passed its strict listing before.
   */
  lemma {:induction false} UnreadableFreezes(lang: Language, s: State, steps: seq<Step>)
    requires Inv(lang, s) && Lawful(lang) && NoneDeciding(s)
    requires Possible(lang, s, steps) && Obeys(lang, Unreadable, s, steps)
    ensures SameIdentities(s.shared, End(lang, s, steps).shared)
    decreases |steps|
  {
    hide Inv, Lawful, Enabled, Apply, NoneDeciding;
    if steps != [] {
      var next := Apply(lang, s, steps[0]);
      UnreadableStep(lang, s, steps[0]);
      StepKeeps(lang, s, steps[0]);
      UnreadableFreezes(lang, next, steps[1..]);
    }
  }

  // ---- the proviso is exact -----------------------------------------------------------------------

  /** Some run, with a record unreadable all along, ends with `next` written. */
  ghost predicate Rewrites(lang: Language, s: State, next: Record) {
    exists s' :: Goes(lang, Unreadable, s, s') && next.id in s'.shared.records && s'.shared.records[next.id] == next
  }

  lemma RewritesOn(lang: Language, s: State, middle: State, next: Record)
    requires Goes(lang, Unreadable, s, middle) && Rewrites(lang, middle, next)
    ensures Rewrites(lang, s, next)
  {
    hide Goes;
    var s' :| Goes(lang, Unreadable, middle, s') && next.id in s'.shared.records && s'.shared.records[next.id] == next;
    GoesOn(lang, Unreadable, s, middle, s');
  }

  lemma WriteRewrites(lang: Language, d: Shared, m: map<nat, Phase>, t: nat, next: Record, wasActive: Option<bool>)
    requires d.unreadable != {}
    ensures Rewrites(lang, At(d, m, t, RefreshWrite(next, wasActive)), next)
  {
    hide Goes;
    Runs(lang, Unreadable, d, m, t, RefreshWrite(next, wasActive), Good(next.id));
  }

  /** A refresh whose stat fails, or finds nothing running, writes at once. */
  lemma AuthedRewrites(lang: Language, d: Shared, m: map<nat, Phase>, t: nat, next: Record)
    requires d.unreadable != {}
    ensures Rewrites(lang, At(d, m, t, RefreshAuthed(next)), next)
  {
    hide Goes, Rewrites;
    var p, blind := RefreshAuthed(next), Choice(next.id, true, false, true);
    Runs(lang, Unreadable, d, m, t, p, blind);
    var d' := Section(lang, d, p, blind).0;
    WriteRewrites(lang, d', m, t, next, None);
    RewritesOn(lang, At(d, m, t, p), At(d', m, t, RefreshWrite(next, None)), next);
  }

  lemma ClearRewrites(lang: Language, d: Shared, m: map<nat, Phase>, t: nat, next: Record, debug: bool)
    requires d.unreadable != {}
    ensures Rewrites(lang, At(d, m, t, DownClear(next.id, Rewrite(next, debug))), next)
  {
    hide Goes, Rewrites;
    var id, p := next.id, DownClear(next.id, Rewrite(next, debug));
    Runs(lang, Unreadable, d, m, t, p, Good(id));
    var d' := d.(markers := d.markers - {id});
    WriteRewrites(lang, d', m, t, next, Some(debug));
    RewritesOn(lang, At(d, m, t, p), At(d', m, t, RefreshWrite(next, Some(debug))), next);
  }

  lemma TeardownRewrites(lang: Language, d: Shared, m: map<nat, Phase>, t: nat, next: Record, debug: bool)
    requires d.unreadable != {}
    ensures Rewrites(lang, At(d, m, t, DownRun(next.id, Rewrite(next, debug))), next)
  {
    hide Goes, Rewrites, HelperOn;
    var id, p := next.id, DownRun(next.id, Rewrite(next, debug));
    Runs(lang, Unreadable, d, m, t, p, Good(id));
    var d' := BringDown(d, InterfaceName(id));
    ClearRewrites(lang, d', m, t, next, debug);
    RewritesOn(lang, At(d, m, t, p), At(d', m, t, DownClear(id, Rewrite(next, debug))), next);
  }

  /** Whoever holds the network lock may stop, on an error or because its process dies. */
  lemma NetworkFreed(lang: Language, d: Shared, m: map<nat, Phase>, t: nat) returns (m': map<nat, Phase>)
    requires d.unreadable != {} && Exclusive(m) && t in m && !HoldsNetwork(m[t])
    ensures m' == m || Goes(lang, Unreadable, State(d, m), State(d, m'))
    ensures t in m' && m'[t] == m[t] && FreeOf(m', t, Network)
  {
    hide Goes, Disjoint;
    m' := m;
    if u :| u in m && u != t && HoldsNetwork(m[u]) {
      m' := m[u := Idle];
      assert !m[u].Idle?;
      GoesStep(lang, Unreadable, State(d, m), Stop(u));
      forall w | w in m' && w != t
        ensures !Holds(m'[w], Network)
      {
        if w != u {
          DisjointMeans(m[u], m[w], Network);
        }
      }
    }
  }

  lemma WaitingRewrites(lang: Language, d: Shared, m: map<nat, Phase>, t: nat, next: Record, debug: bool)
    requires d.unreadable != {} && FreeOf(m, t, Network)
    ensures Rewrites(lang, At(d, m, t, DownWantNetwork(next.id, Rewrite(next, debug))), next)
  {
    hide Goes, Rewrites, FreeOf;
    var p := DownWantNetwork(next.id, Rewrite(next, debug));
    Acquires(lang, Unreadable, d, m, t, p);
    TeardownRewrites(lang, d, m, t, next, debug);
    RewritesOn(lang, At(d, m, t, p), At(d, m, t, Acquired(p)), next);
  }

  /** The record is readable again, another one is not. */
  lemma LoadRewrites(lang: Language, d: Shared, m: map<nat, Phase>, t: nat, next: Record, debug: bool, r: ConnectionId)
    requires r in d.unreadable && next.id != r && next.id in d.records && FreeOf(m, t, Network)
    ensures Rewrites(lang, At(d, m, t, DownLoad(next.id, Rewrite(next, debug))), next)
  {
    hide Goes, Rewrites, FreeOf;
    var id, p := next.id, DownLoad(next.id, Rewrite(next, debug));
    var d' := d.(unreadable := d.unreadable - {id});
    assert r in d'.unreadable;
    GoesStep(lang, Unreadable, At(d, m, t, p), Heal(id));
    Runs(lang, Unreadable, d', m, t, p, Good(id));
    WaitingRewrites(lang, d', m, t, next, debug);
    RewritesOn(lang, At(d', m, t, p), At(d', m, t, DownWantNetwork(id, Rewrite(next, debug))), next);
    RewritesOn(lang, At(d, m, t, p), At(d', m, t, p), next);
  }

  lemma UnstartedRefreshWrites(lang: Language, d: Shared, m: map<nat, Phase>, t: nat, r: ConnectionId)
    requires t in m && Exclusive(m) && (m[t].DownLoad? || m[t].DownWantNetwork?) && m[t].then_.Rewrite?
    requires RewritePart(lang, d, m[t]) && r in d.unreadable && m[t].then_.next.id != r
    ensures Rewrites(lang, State(d, m), m[t].then_.next)
  {
    hide Goes, Rewrites, Exclusive, FreeOf;
    var next, debug := m[t].then_.next, m[t].then_.debug;
    var m' := NetworkFreed(lang, d, m, t);
    MapSame(m', t);
    if m[t].DownLoad? {
      LoadRewrites(lang, d, m', t, next, debug, r);
    } else {
      WaitingRewrites(lang, d, m', t, next, debug);
    }
    if m' != m {
      RewritesOn(lang, State(d, m), State(d, m'), next);
    }
  }

  /** From every phase in which a refresh is past its listing, some run writes. */
  lemma DecidedRefreshWrites(lang: Language, d: Shared, m: map<nat, Phase>, t: nat, r: ConnectionId)
    requires t in m && Exclusive(m) && RewriteOf(m[t]).Some? && RewritePart(lang, d, m[t])
    requires r in d.unreadable && RewriteOf(m[t]).value.id != r
    ensures Rewrites(lang, State(d, m), RewriteOf(m[t]).value)
  {
    hide Goes, Rewrites, Exclusive, FreeOf;
    MapSame(m, t);
    var next := RewriteOf(m[t]).value;
    var p := m[t];
    if p.RefreshAuthed? {
      AuthedRewrites(lang, d, m, t, next);
    } else if p.RefreshWrite? {
      WriteRewrites(lang, d, m, t, next, p.wasActive);
    } else if p.DownClear? {
      ClearRewrites(lang, d, m, t, next, p.then_.debug);
    } else if p.DownRun? {
      TeardownRewrites(lang, d, m, t, next, p.then_.debug);
    } else {
      UnstartedRefreshWrites(lang, d, m, t, r);
    }
  }

  lemma DecidedAddWrites(lang: Language, s: State, t: nat)
    requires Lawful(lang) && Reachable(lang, s) && PhaseOf(s, t).AddCreate? && s.shared.unreadable != {}
    ensures exists s' :: Goes(lang, Unreadable, s, s') && !SameIdentities(s.shared, s'.shared)
  {
    hide Goes, Reachable, Lawful;
    CreateIsFresh(lang, s, t);
    MapSame(s.threads, t);
    Runs(lang, Unreadable, s.shared, s.threads, t, PhaseOf(s, t), Good(PhaseOf(s, t).next.id));
  }

  /**
    A thread past its strict listing writes all the same: with any other record
    unreadable all along, some run creates a record or changes an identity.
   */
  lemma DecidedWrites(lang: Language, s: State, t: nat, r: ConnectionId)
    requires Lawful(lang) && Reachable(lang, s) && Deciding(PhaseOf(s, t)) && r in s.shared.unreadable
    requires RewriteOf(PhaseOf(s, t)).Some? ==> RewriteOf(PhaseOf(s, t)).value.id != r
    ensures exists s' :: Goes(lang, Unreadable, s, s') && !SameIdentities(s.shared, s'.shared)
  {
    hide Goes, Reachable, Lawful, DataOk, Exclusive;
    if PhaseOf(s, t).AddCreate? {
      DecidedAddWrites(lang, s, t);
    } else {
      ReachableInv(lang, s);
      assert RewritePart(lang, s.shared, s.threads[t]);
      DecidedRefreshWrites(lang, s.shared, s.threads, t, r);
      var next := RewriteOf(s.threads[t]).value;
      var s' :| Goes(lang, Unreadable, s, s') && next.id in s'.shared.records && s'.shared.records[next.id] == next;
      assert !SameFixed(s.shared.records[next.id], next);
    }
  }

  /** Nobody is refreshing this record. */
  ghost predicate NotRewritten(s: State, r: ConnectionId) {
    forall t :: t in s.threads && RewriteOf(s.threads[t]).Some? ==> RewriteOf(s.threads[t]).value.id != r
  }

  /**
    While a record that nobody is refreshing is unreadable, identities are frozen
    in every continuation exactly if no thread is past its listing.
   */
  lemma FrozenExactly(lang: Language, s: State, r: ConnectionId)
    requires Lawful(lang) && Reachable(lang, s) && r in s.shared.unreadable && NotRewritten(s, r)
    ensures (forall s' :: Goes(lang, Unreadable, s, s') ==> SameIdentities(s.shared, s'.shared)) <==> NoneDeciding(s)
  {
    hide Reachable, Lawful, Inv, Possible, Obeys, End, SameIdentities, RewriteOf;
    ReachableInv(lang, s);
    if NoneDeciding(s) {
      forall s' | Goes(lang, Unreadable, s, s')
        ensures SameIdentities(s.shared, s'.shared)
      {
        var steps :| Possible(lang, s, steps) && Obeys(lang, Unreadable, s, steps) && End(lang, s, steps) == s';
        UnreadableFreezes(lang, s, steps);
      }
    } else {
      var t :| t in s.threads && Deciding(s.threads[t]);
      DecidedWrites(lang, s, t, r);
    }
  }

  /** A record spoiled only after a thread had decided does not stop the thread. */
  lemma SpoiledTooLate(lang: Language, s: State, t: nat, r: ConnectionId)
    requires Lawful(lang) && Reachable(lang, s) && Deciding(PhaseOf(s, t)) && r in s.shared.records
    requires RewriteOf(PhaseOf(s, t)).Some? ==> RewriteOf(PhaseOf(s, t)).value.id != r
    ensures var spoiled := Apply(lang, s, Spoil(r));
      exists s' :: Goes(lang, Unreadable, spoiled, s') && !SameIdentities(spoiled.shared, s'.shared)
  {
    hide Goes, Reachable, Lawful;
    GoesStep(lang, Anything, s, Spoil(r));
    ReachesOn(lang, Anything, s, Apply(lang, s, Spoil(r)));
    DecidedWrites(lang, Apply(lang, s, Spoil(r)), t, r);
  }

  // ---- such states are reachable --------------------------------------------------------------------

  const ID2 := ConnectionId(1, 0)

  /** A second configuration arrives while the first one is stored. */
  function SecondDecision(
      lang: Language, text: string, config: Config, text2: string, config2: Config): (Shared, Phase) {
    AddDecision(lang, OneRecord(lang, text, config), Submission(text2, None), config2, ID2)
  }

  lemma SecondAddDecides(lang: Language, text: string, config: Config, text2: string, config2: Config)
    requires lang.parse(text) == Some(config) && lang.parse(text2) == Some(config2)
    requires lang.fingerprint(config) != lang.fingerprint(config2)
    ensures var (d, p) := SecondDecision(lang, text, config, text2, config2);
      && p == AddCreate(NewRecord(Submission(text2, None), ID2, lang.fingerprint(config2), config2, text2))
      && d == OneRecord(lang, text, config).(minted := d.minted)
      && Goes(lang, Anything, State(EMPTY_STORE, map[]), State(d, map[0 := Done(Id(ID)), 1 := p]))
  {
    hide Goes;
    var d0, m := OneRecord(lang, text, config), map[0 := Done(Id(ID))];
    var (d, p) := SecondDecision(lang, text, config, text2, config2);
    FirstAdd(lang, text, config);
    assert Addable(lang, d0, Submission(text2, None), config2, ID2);
    AddReachesCreate(lang, ID, d0, m, 1, Submission(text2, None), UID, config2, ID2);
    GoesAnyhow(lang, Calm(ID), State(EMPTY_STORE, map[]), State(d0, m));
    GoesAnyhow(lang, Calm(ID), State(d0, m), At(d, m, 1, p));
    GoesOn(lang, Anything, State(EMPTY_STORE, map[]), State(d0, m), At(d, m, 1, p));
    assert m[1 := p] == map[0 := Done(Id(ID)), 1 := p];
  }

  lemma GoesAnyhow(lang: Language, rule: Rule, s: State, s': State)
    requires Goes(lang, rule, s, s')
    ensures Goes(lang, Anything, s, s')
  {
    hide Possible, Obeys, End;
    var steps :| Possible(lang, s, steps) && Obeys(lang, rule, s, steps) && End(lang, s, steps) == s';
    AnythingGoes(lang, s, steps);
  }

  /** The three texts are usable, and no two of them denote the same tunnel. */
  predicate Distinct(lang: Language, texts: seq<string>, configs: seq<Config>) {
    && |texts| == 3 && |configs| == 3
    && (forall i :: 0 <= i < 3 ==> lang.parse(texts[i]) == Some(configs[i]) && |configs[i].peers| == 1)
    && (forall i, j :: 0 <= i < j < 3 ==> lang.fingerprint(configs[i]) != lang.fingerprint(configs[j]))
  }

  /** For every language with such texts: a reachable add is past its listing while a record is stored. */
  lemma LateAddReachable(lang: Language, texts: seq<string>, configs: seq<Config>)
    requires Distinct(lang, texts, configs)
    ensures exists s :: Reachable(lang, s) && PhaseOf(s, 1).AddCreate? && ID in s.shared.records
  {
    hide Goes, Reachable;
    SecondAddDecides(lang, texts[0], configs[0], texts[1], configs[1]);
    var (d, p) := SecondDecision(lang, texts[0], configs[0], texts[1], configs[1]);
    var s := State(d, map[0 := Done(Id(ID)), 1 := p]);
    StartReachable(lang);
    ReachesOn(lang, Anything, State(EMPTY_STORE, map[]), s);
  }

  /** And a reachable refresh is past its listing while another record is stored. */
  lemma LateRefreshReachable(lang: Language, texts: seq<string>, configs: seq<Config>)
    requires Distinct(lang, texts, configs)
    ensures exists s ::
      && Reachable(lang, s) && RewriteOf(PhaseOf(s, 2)).Some? && RewriteOf(PhaseOf(s, 2)).value.id == ID
      && ID2 in s.shared.records
  {
    hide Goes, Reachable, SecondStored;
    var m := map[0 := Done(Id(ID)), 1 := Done(Id(ID2))];
    SecondAdd(lang, texts[0], configs[0], texts[1], configs[1]);
    var d := SecondStored(lang, texts[0], configs[0], texts[1], configs[1]);
    SecondStoredFacts(lang, texts, configs);
    RefreshAuthorizes(lang, d, m, 2, ID, texts[2], configs[2]);
    var s := At(d, m, 2, RefreshAuthed(Refreshed(lang, d.records[ID], configs[2], texts[2], None)));
    ReachesOn(lang, Calm(ID), State(d, m), s);
    assert RewriteOf(PhaseOf(s, 2)).value.id == ID;
  }

  /** The store after both adds. */
  function SecondStored(lang: Language, text: string, config: Config, text2: string, config2: Config): Shared
    requires SecondDecision(lang, text, config, text2, config2).1.AddCreate?
  {
    var (d, p) := SecondDecision(lang, text, config, text2, config2);
    Section(lang, d, p, Good(ID2)).0
  }

  lemma SecondStoredFacts(lang: Language, texts: seq<string>, configs: seq<Config>)
    requires Distinct(lang, texts, configs)
    requires SecondDecision(lang, texts[0], configs[0], texts[1], configs[1]).1.AddCreate?
    ensures var d := SecondStored(lang, texts[0], configs[0], texts[1], configs[1]);
      Changes(lang, d, ID, texts[2], configs[2]) && ID in d.records && d.records[ID].id == ID
  {
  }

  lemma SecondAdd(lang: Language, text: string, config: Config, text2: string, config2: Config)
    requires lang.parse(text) == Some(config) && lang.parse(text2) == Some(config2)
    requires lang.fingerprint(config) != lang.fingerprint(config2)
    ensures SecondDecision(lang, text, config, text2, config2).1.AddCreate?
    ensures var d := SecondStored(lang, text, config, text2, config2);
      Reachable(lang, State(d, map[0 := Done(Id(ID)), 1 := Done(Id(ID2))])) && ID2 in d.records
  {
    hide Goes, Reachable, SecondDecision;
    SecondAddDecides(lang, text, config, text2, config2);
    var (d, p) := SecondDecision(lang, text, config, text2, config2);
    var m := map[0 := Done(Id(ID)), 1 := p];
    MapSame(m, 1);
    Runs(lang, Anything, d, m, 1, p, Good(ID2));
    StartReachable(lang);
    ReachesOn(lang, Anything, State(EMPTY_STORE, map[]), State(d, m));
    assert m[1 := Done(Id(ID2))] == map[0 := Done(Id(ID)), 1 := Done(Id(ID2))];
    ReachesOn(lang, Anything, State(d, m), State(Section(lang, d, p, Good(ID2)).0, m[1 := Done(Id(ID2))]));
  }
}
