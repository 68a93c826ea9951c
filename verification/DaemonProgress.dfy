/**
  What a request achieves when nothing goes wrong: from any state in which the
  locks it needs are free, a run of its own steps ends in the result the request
  asks for. Each run restores no other connection (`other`).
 */
module DaemonProgress {
  import opened Wrappers
  import opened BypassLinks
  import opened Records
  import opened Daemon
  import opened DaemonInvariant
  import opened DaemonSections
  import opened DaemonSafety
  import opened DaemonGuarantees
  import opened DaemonRuns
  import opened DaemonDisconnect
  import opened DaemonWitness
  import opened DaemonOutcomes

  /** `id` is up: a live helper launched from exactly the stored record, and a marker that says so. */
  predicate UpAsStored(lang: Language, d: Shared, id: ConnectionId, debug: bool) {
    && id in d.records && InterfaceName(id) in d.sockets
    && var n, r := d.sockets[InterfaceName(id)], d.records[id];
       && n in d.live && n < |d.launches|
       && d.launches[n] == Launch(id, InterfaceName(id), r.fingerprint, r.rawConf, lang.admitted(r.links, r.config))
       && id in d.markers && d.markers[id] == Marker(r.fingerprint, n, debug)
  }

  /** Every other record and marker is as it was. */
  ghost predicate OthersSame(d: Shared, d': Shared, id: ConnectionId) {
    forall other :: other != id ==> SameRecord(d, d', other) && SameMarker(d, d', other)
  }

  // ---- connect --------------------------------------------------------------------------------

  /** The state a connect of a ready record ends in. */
  function Connected(lang: Language, d: Shared, id: ConnectionId, debug: bool): Shared
    requires id in d.records
  {
    var up := Spawn(lang, d, d.records[id]);
    up.(markers := up.markers[id := Marker(d.records[id].fingerprint, |d.launches|, debug)])
  }

  lemma ConnectedIsUp(lang: Language, d: Shared, id: ConnectionId, debug: bool)
    requires id in d.records && d.records[id].id == id && d.records[id].interface == InterfaceName(id)
    ensures UpAsStored(lang, Connected(lang, d, id, debug), id, debug)
      && OthersSame(d, Connected(lang, d, id, debug), id)
    ensures Connected(lang, d, id, debug).records == d.records
  {
  }

  lemma NetworkToUp(
      lang: Language, other: ConnectionId, d: Shared, m: map<nat, Phase>, t: nat, id: ConnectionId, debug: bool)
    requires Ready(lang, d, id) && FreeOf(m, t, Network)
    ensures Goes(lang, Calm(other), At(d, m, t, UpWantNetwork(d.records[id], debug)),
                 At(Connected(lang, d, id, debug), m, t, Done(Unit)))
  {
    hide Goes, FreeOf, HelperOn, Reparses, At;
    var r := d.records[id];
    ConnectSpawns(lang, d, m, t, other, r, debug);
    LaunchedFinishes(lang, other, Spawn(lang, d, r), m, t, r, debug, |d.launches|);
    GoesOn(lang, Calm(other), At(d, m, t, UpWantNetwork(r, debug)),
           At(Spawn(lang, d, r), m, t, UpPost(r, debug, |d.launches|)),
           At(Connected(lang, d, id, debug), m, t, Done(Unit)));
  }

  /** From the load of a ready record to the saved marker. */
  lemma LoadToUp(
      lang: Language, other: ConnectionId, d: Shared, m: map<nat, Phase>, t: nat, id: ConnectionId, debug: bool)
    requires Ready(lang, d, id) && FreeOf(m, t, Network)
    ensures Goes(lang, Calm(other), At(d, m, t, UpLoad(id, debug)), At(Connected(lang, d, id, debug), m, t, Done(Unit)))
  {
    hide Goes, FreeOf, Ready, At, Connected;
    ReadyStored(lang, d, id);
    LoadedChecks(lang, Calm(other), d, m, t, id, debug);
    NetworkToUp(lang, other, d, m, t, id, debug);
    GoesOn(lang, Calm(other), At(d, m, t, UpLoad(id, debug)), At(d, m, t, UpWantNetwork(d.records[id], debug)),
           At(Connected(lang, d, id, debug), m, t, Done(Unit)));
  }

  lemma ReadyStored(lang: Language, d: Shared, id: ConnectionId)
    requires Ready(lang, d, id)
    ensures id in d.records
  {
  }

  /** The store with the user's earlier disconnect forgotten. */
  function Intended(d: Shared, id: ConnectionId): Shared
    requires id in d.records
  {
    if d.records[id].userDisconnected then Save(d, d.records[id].(userDisconnected := false)) else d
  }

  lemma UserIntent(
      lang: Language, other: ConnectionId, d: Shared, m: map<nat, Phase>, t: nat, id: ConnectionId, debug: bool)
    requires Ready(lang, d, id) && other != id && IdleIn(m, t) && FreeOf(m, t, Connection(id))
    ensures Goes(lang, Calm(other), State(d, m), At(Intended(d, id), m, t, UpLoad(id, debug)))
  {
    hide Goes, FreeOf, HelperOn, Reparses, At, Save;
    var s, first := State(d, m), ConnectWantConn(id, debug, User, 0);
    Arrives(lang, Calm(other), d, m, t, ConnectRequest(id, debug, User), 0);
    Acquires(lang, Calm(other), d, m, t, first);
    GoesOn(lang, Calm(other), s, At(d, m, t, first), At(d, m, t, Acquired(first)));
    Runs(lang, Calm(other), d, m, t, Acquired(first), Good(id));
    GoesOn(lang, Calm(other), s, At(d, m, t, Acquired(first)), At(Intended(d, id), m, t, UpLoad(id, debug)));
  }

  lemma IntendedReady(lang: Language, d: Shared, id: ConnectionId)
    requires Ready(lang, d, id)
    ensures Ready(lang, Intended(d, id), id) && !Intended(d, id).records[id].userDisconnected
    ensures Intended(d, id).records[id] == d.records[id].(userDisconnected := false)
      && OthersSame(d, Intended(d, id), id)
  {
    QuietSame(d, Intended(d, id), id);
  }

  /**
    A user's connect forgets an earlier disconnect and brings the stored configuration up, and touches nothing
    else.
   */
  lemma UserConnects(
      lang: Language, other: ConnectionId, d: Shared, m: map<nat, Phase>, t: nat, id: ConnectionId, debug: bool)
    requires Ready(lang, d, id) && other != id && IdleIn(m, t) && FreeOf(m, t, Connection(id)) && FreeOf(m, t, Network)
    ensures exists d' ::
      && Goes(lang, Calm(other), State(d, m), At(d', m, t, Done(Unit)))
      && UpAsStored(lang, d', id, debug) && d'.records[id] == d.records[id].(userDisconnected := false)
        && OthersSame(d, d', id)
  {
    hide Goes, FreeOf, Ready, UpAsStored, Connected, Intended, OthersSame;
    ReadyStored(lang, d, id);
    var d1 := Intended(d, id);
    IntendedReady(lang, d, id);
    ReadyStored(lang, d1, id);
    ReadyInterface(lang, d1, id);
    UserIntent(lang, other, d, m, t, id, debug);
    LoadToUp(lang, other, d1, m, t, id, debug);
    var d' := Connected(lang, d1, id, debug);
    GoesOn(lang, Calm(other), State(d, m), At(d1, m, t, UpLoad(id, debug)), At(d', m, t, Done(Unit)));
    ConnectedIsUp(lang, d1, id, debug);
    OthersSameTransitive(d, d1, d', id);
  }

  lemma ReadyInterface(lang: Language, d: Shared, id: ConnectionId)
    requires Ready(lang, d, id)
    ensures id in d.records && d.records[id].interface == InterfaceName(id) && d.records[id].id == id
  {
  }

  lemma OthersSameTransitive(a: Shared, b: Shared, c: Shared, id: ConnectionId)
    requires OthersSame(a, b, id) && OthersSame(b, c, id)
    ensures OthersSame(a, c, id)
  {
    forall other | other != id
      ensures SameRecord(a, c, other) && SameMarker(a, c, other)
    {
      assert SameRecord(a, b, other) && SameRecord(b, c, other);
    }
  }

  // ---- disconnect and refresh -----------------------------------------------------------------------

  /** The state a confirmed teardown leaves. */
  function TornDown(d: Shared, id: ConnectionId): Shared {
    BringDown(d, InterfaceName(id)).(markers := d.markers - {id})
  }

  lemma TornDownFacts(d: Shared, id: ConnectionId)
    ensures Quiet(TornDown(d, id), id) && id !in TornDown(d, id).markers
    ensures TornDown(d, id).records == d.records && OthersSame(d, TornDown(d, id), id)
  {
  }

  lemma TeardownSections(lang: Language, d: Shared, id: ConnectionId, k: Then)
    requires id in d.records && id !in d.unreadable
    ensures Section(lang, d, DownLoad(id, k), Good(id)) == (d, DownWantNetwork(id, k))
    ensures Section(lang, d, DownRun(id, k), Good(id)) == (BringDown(d, InterfaceName(id)), DownClear(id, k))
    ensures var down := BringDown(d, InterfaceName(id));
      Section(lang, down, DownClear(id, k), Good(id)) == (down.(markers := down.markers - {id}), AfterDown(id, k))
  {
    hide BringDown;
  }

  lemma TearsDown(lang: Language, other: ConnectionId, d: Shared, m: map<nat, Phase>, t: nat, id: ConnectionId, k: Then)
    requires id in d.records && id !in d.unreadable && FreeOf(m, t, Network)
    ensures Goes(lang, Calm(other), At(d, m, t, DownLoad(id, k)), At(TornDown(d, id), m, t, AfterDown(id, k)))
  {
    hide Goes, FreeOf, At, BringDown, AfterDown, Section;
    TeardownSections(lang, d, id, k);
    var s, c, wants := At(d, m, t, DownLoad(id, k)), Good(id), DownWantNetwork(id, k);
    var down := BringDown(d, InterfaceName(id));
    Runs(lang, Calm(other), d, m, t, DownLoad(id, k), c);
    Acquires(lang, Calm(other), d, m, t, wants);
    GoesOn(lang, Calm(other), s, At(d, m, t, wants), At(d, m, t, DownRun(id, k)));
    Runs(lang, Calm(other), d, m, t, DownRun(id, k), c);
    GoesOn(lang, Calm(other), s, At(d, m, t, DownRun(id, k)), At(down, m, t, DownClear(id, k)));
    BringDownMarkers(d, InterfaceName(id));
    Runs(lang, Calm(other), down, m, t, DownClear(id, k), c);
    GoesOn(lang, Calm(other), s, At(down, m, t, DownClear(id, k)), At(TornDown(d, id), m, t, AfterDown(id, k)));
  }

  lemma BringDownMarkers(d: Shared, interface: Interface)
    ensures BringDown(d, interface).markers == d.markers
  {
  }

  lemma RefreshSees(lang: Language, d: Shared, n: nat, next: Record, c: Choice)
    requires Running(d, next.id, n) && !c.statFails
    ensures Section(lang, d, RefreshAuthed(next), c) == (d, DownLoad(next.id, Rewrite(next, d.markers[next.id].debug)))
  {
  }

  lemma RefreshTearsDown(lang: Language, d: Shared, m: map<nat, Phase>, t: nat, n: nat, next: Record)
    requires Running(d, next.id, n) && next.id !in d.unreadable && FreeOf(m, t, Network)
    ensures Goes(lang, Calm(next.id), At(d, m, t, RefreshAuthed(next)),
                 At(Save(TornDown(d, next.id), next), m, t, UpLoad(next.id, d.markers[next.id].debug)))
  {
    hide Goes, FreeOf, At, Section, TornDown, Save;
    var id, debug := next.id, d.markers[next.id].debug;
    var s, k := At(d, m, t, RefreshAuthed(next)), Rewrite(next, debug);
    RefreshSees(lang, d, n, next, Good(id));
    Runs(lang, Calm(id), d, m, t, RefreshAuthed(next), Good(id));
    TearsDown(lang, id, d, m, t, id, k);
    GoesOn(lang, Calm(id), s, At(d, m, t, DownLoad(id, k)), At(TornDown(d, id), m, t, RefreshWrite(next, Some(debug))));
    WritesAndLoads(lang, TornDown(d, id), next, debug, Good(id));
    Runs(lang, Calm(id), TornDown(d, id), m, t, RefreshWrite(next, Some(debug)), Good(id));
    GoesOn(lang, Calm(id), s, At(TornDown(d, id), m, t, RefreshWrite(next, Some(debug))),
           At(Save(TornDown(d, id), next), m, t, UpLoad(id, debug)));
  }

  lemma WritesAndLoads(lang: Language, d: Shared, next: Record, debug: bool, c: Choice)
    ensures Section(lang, d, RefreshWrite(next, Some(debug)), c) == (Save(d, next), UpLoad(next.id, debug))
  {
  }

  lemma RewrittenReady(lang: Language, d: Shared, id: ConnectionId, text: string, config: Config)
    requires Changes(lang, d, id, text, config) && d.records[id].id == id
      && d.records[id].interface == InterfaceName(id)
    ensures var next := Refreshed(lang, d.records[id], config, text, None);
      var d' := Save(TornDown(d, id), next);
      Ready(lang, d', id) && d'.records[id] == next && OthersSame(d, d', id)
  {
    hide TornDown;
    var next := Refreshed(lang, d.records[id], config, text, None);
    TornDownFacts(d, id);
    QuietSame(TornDown(d, id), Save(TornDown(d, id), next), id);
    forall other | other != id
      ensures SameRecord(d, Save(TornDown(d, id), next), other) && SameMarker(d, Save(TornDown(d, id), next), other)
    {
      assert SameRecord(d, TornDown(d, id), other);
    }
  }

  /**
    A refresh of a running tunnel takes it down, stores the new configuration
    with the links pruned to it, and brings exactly that up with the debug flag
    it had; the connection is not restored by it and nothing else changes.
   */
  lemma RefreshRestarts(
      lang: Language, d: Shared, m: map<nat, Phase>, t: nat, id: ConnectionId, n: nat, text: string, config: Config)
    requires Changes(lang, d, id, text, config) && Running(d, id, n) && IdleIn(m, t)
    requires FreeOf(m, t, Index) && FreeOf(m, t, Connection(id)) && FreeOf(m, t, Network)
    ensures exists d' ::
      && Goes(lang, Calm(id), State(d, m), At(d', m, t, Done(Unit)))
      && UpAsStored(lang, d', id, d.markers[id].debug) && OthersSame(d, d', id)
      && d'.records[id] == d.records[id].(
           fingerprint := lang.fingerprint(config), config := config, rawConf := text,
           links := lang.prune(d.records[id].links, config))
  {
    hide Goes, FreeOf, Changes, Ready, UpAsStored, OthersSame, Connected, TornDown, Save, At;
    var next, debug := Refreshed(lang, d.records[id], config, text, None), d.markers[id].debug;
    var d2 := Save(TornDown(d, id), next);
    RefreshAuthorizes(lang, d, m, t, id, text, config);
    ChangesReadable(lang, d, id, text, config);
    RefreshTearsDown(lang, d, m, t, n, next);
    GoesOn(lang, Calm(id), State(d, m), At(d, m, t, RefreshAuthed(next)), At(d2, m, t, UpLoad(id, debug)));
    RewrittenReady(lang, d, id, text, config);
    ReadyInterface(lang, d2, id);
    LoadToUp(lang, id, d2, m, t, id, debug);
    var d' := Connected(lang, d2, id, debug);
    GoesOn(lang, Calm(id), State(d, m), At(d2, m, t, UpLoad(id, debug)), At(d', m, t, Done(Unit)));
    ConnectedIsUp(lang, d2, id, debug);
    OthersSameTransitive(d, d2, d', id);
  }

  lemma ChangesReadable(lang: Language, d: Shared, id: ConnectionId, text: string, config: Config)
    requires Changes(lang, d, id, text, config)
    ensures id in d.records && d.unreadable == {}
  {
  }

  lemma RefreshSeesNothing(lang: Language, d: Shared, next: Record, c: Choice)
    requires ActiveDebug(d, next.id).None?
    ensures Section(lang, d, RefreshAuthed(next), c) == (d, RefreshWrite(next, None))
  {
  }

  /** A refresh of a connection that is down only replaces its configuration. */
  lemma RefreshReplaces(
      lang: Language, d: Shared, m: map<nat, Phase>, t: nat, id: ConnectionId, text: string, config: Config)
    requires Changes(lang, d, id, text, config) && d.records[id].id == id && ActiveDebug(d, id).None? && IdleIn(m, t)
    requires FreeOf(m, t, Index) && FreeOf(m, t, Connection(id))
    ensures exists d' ::
      && Goes(lang, Calm(id), State(d, m), At(d', m, t, Done(Unit)))
      && d'.sockets == d.sockets && d'.live == d.live && d'.launches == d.launches && d'.markers == d.markers
      && d'.records == d.records[id := d.records[id].(
           fingerprint := lang.fingerprint(config), config := config, rawConf := text,
           links := lang.prune(d.records[id].links, config))]
  {
    hide Goes, FreeOf, Changes, Section, At;
    ChangesReadable(lang, d, id, text, config);
    var next := Refreshed(lang, d.records[id], config, text, None);
    var c := Good(id);
    RefreshAuthorizes(lang, d, m, t, id, text, config);
    RefreshSeesNothing(lang, d, next, c);
    Runs(lang, Calm(id), d, m, t, RefreshAuthed(next), c);
    GoesOn(lang, Calm(id), State(d, m), At(d, m, t, RefreshAuthed(next)), At(d, m, t, RefreshWrite(next, None)));
    RefreshWrites(lang, d, next, c);
    Runs(lang, Calm(id), d, m, t, RefreshWrite(next, None), c);
    GoesOn(lang, Calm(id), State(d, m), At(d, m, t, RefreshWrite(next, None)), At(Save(d, next), m, t, Done(Unit)));
  }

  /** A reconnect of a running tunnel ends with the same record up again, with the same debug flag. */
  lemma ReconnectRestarts(lang: Language, d: Shared, m: map<nat, Phase>, t: nat, id: ConnectionId, n: nat)
    requires Running(d, id, n) && id !in d.unreadable && Reparses(lang, d.records[id])
      && |d.records[id].config.peers| == 1
    requires IdleIn(m, t) && FreeOf(m, t, Connection(id)) && FreeOf(m, t, Network)
    ensures exists d' ::
      && Goes(lang, Calm(id), State(d, m), At(d', m, t, Done(Unit)))
      && UpAsStored(lang, d', id, d.markers[id].debug) && d'.records == d.records && OthersSame(d, d', id)
  {
    hide Goes, FreeOf, Reparses, UpAsStored, OthersSame, Connected, TornDown, At;
    var debug, s, d1 := d.markers[id].debug, State(d, m), TornDown(d, id);
    ReconnectBegins(lang, d, m, t, id, n);
    TearsDown(lang, id, d, m, t, id, Reconnect(debug));
    GoesOn(lang, Calm(id), s, At(d, m, t, DownLoad(id, Reconnect(debug))), At(d1, m, t, UpLoad(id, debug)));
    TornDownFacts(d, id);
    TornDownReadable(d, id);
    LoadToUp(lang, id, d1, m, t, id, debug);
    var d' := Connected(lang, d1, id, debug);
    GoesOn(lang, Calm(id), s, At(d1, m, t, UpLoad(id, debug)), At(d', m, t, Done(Unit)));
    ConnectedIsUp(lang, d1, id, debug);
    OthersSameTransitive(d, d1, d', id);
  }

  lemma TornDownReadable(d: Shared, id: ConnectionId)
    ensures TornDown(d, id).unreadable == d.unreadable
  {
  }

  lemma ReconnectBegins(lang: Language, d: Shared, m: map<nat, Phase>, t: nat, id: ConnectionId, n: nat)
    requires Running(d, id, n) && id !in d.unreadable && IdleIn(m, t) && FreeOf(m, t, Connection(id))
    ensures Goes(lang, Calm(id), State(d, m), At(d, m, t, DownLoad(id, Reconnect(d.markers[id].debug))))
  {
    hide Goes, FreeOf, At;
    var s, first := State(d, m), ReconnectWantConn(id, 0);
    Arrives(lang, Calm(id), d, m, t, ReconnectRequest(id), 0);
    Acquires(lang, Calm(id), d, m, t, first);
    GoesOn(lang, Calm(id), s, At(d, m, t, first), At(d, m, t, ReconnectLocked(id, 0)));
    Runs(lang, Calm(id), d, m, t, ReconnectLocked(id, 0), Good(id));
    GoesOn(lang, Calm(id), s, At(d, m, t, ReconnectLocked(id, 0)),
           At(d, m, t, DownLoad(id, Reconnect(d.markers[id].debug))));
  }

  // ---- add, remove, settings ---------------------------------------------------------------------------

  /** A new configuration, a free name and a fresh id. */
  predicate Addable(lang: Language, d: Shared, a: Add, config: Config, id: ConnectionId) {
    && a.form == Verified && d.unreadable == {} && lang.parse(Effective(lang, a.text, a.mtu)) == Some(config)
    && (forall other :: other in d.records ==> !FoundIdentity(d, lang.fingerprint(config), a.global, a.owner, other))
    && (a.name.None? || a.force || !NameTaken(d, a.name.value, a.global, a.owner))
    && id !in d.minted && id !in d.records
    && forall other :: other in d.records ==> d.records[other].interface != InterfaceName(id)
  }

  function AddDecision(lang: Language, d: Shared, a: Add, config: Config, id: ConnectionId): (Shared, Phase) {
    AddNew(d, a, lang.fingerprint(config), config, Effective(lang, a.text, a.mtu), Good(id))
  }

  lemma AddDecides(lang: Language, d: Shared, a: Add, config: Config, id: ConnectionId)
    requires Addable(lang, d, a, config, id)
    ensures Section(lang, d, AddIndexed(a), Good(id)) == AddDecision(lang, d, a, config, id)
    ensures AddDecision(lang, d, a, config, id).1
      == AddCreate(NewRecord(a, id, lang.fingerprint(config), config, Effective(lang, a.text, a.mtu)))
    ensures AddDecision(lang, d, a, config, id).0.records == d.records
  {
    hide NameTaken;
  }

  /** An add of a new configuration gets as far as its decision. */
  lemma AddReachesCreate(
      lang: Language, other: ConnectionId, d: Shared, m: map<nat, Phase>, t: nat, a: Add, uid: nat, config: Config,
      id: ConnectionId)
    requires Addable(lang, d, a, config, id) && AddAccepted(a, uid) && IdleIn(m, t) && FreeOf(m, t, Index)
    ensures var (d1, p) := AddDecision(lang, d, a, config, id);
      Goes(lang, Calm(other), State(d, m), At(d1, m, t, p))
  {
    hide Goes, FreeOf, At, Section, Addable, AddAccepted, AddDecision;
    var s := State(d, m);
    Arrives(lang, Calm(other), d, m, t, AddRequest(a), uid);
    Acquires(lang, Calm(other), d, m, t, AddWantIndex(a));
    GoesOn(lang, Calm(other), s, At(d, m, t, AddWantIndex(a)), At(d, m, t, AddIndexed(a)));
    AddDecides(lang, d, a, config, id);
    var (d1, p) := AddDecision(lang, d, a, config, id);
    Runs(lang, Calm(other), d, m, t, AddIndexed(a), Good(id));
    GoesOn(lang, Calm(other), s, At(d, m, t, AddIndexed(a)), At(d1, m, t, p));
  }

  /** An add of a new configuration stores exactly what was submitted, down and unflagged, under the fresh id. */
  lemma AddStores(
      lang: Language, other: ConnectionId, d: Shared, m: map<nat, Phase>, t: nat, a: Add, uid: nat, config: Config,
      id: ConnectionId)
    requires Addable(lang, d, a, config, id) && AddAccepted(a, uid) && IdleIn(m, t) && FreeOf(m, t, Index)
    ensures exists d' ::
      && Goes(lang, Calm(other), State(d, m), At(d', m, t, Done(Id(id))))
      && d'.records == d.records[id := NewRecord(a, id, lang.fingerprint(config), config,
                                                 Effective(lang, a.text, a.mtu))]
  {
    hide Goes, FreeOf, At, Section, Addable, AddAccepted, AddDecision;
    var c := Good(id);
    var next := NewRecord(a, id, lang.fingerprint(config), config, Effective(lang, a.text, a.mtu));
    AddReachesCreate(lang, other, d, m, t, a, uid, config, id);
    AddDecides(lang, d, a, config, id);
    var d1 := AddDecision(lang, d, a, config, id).0;
    Creates(lang, d1, next, c);
    Runs(lang, Calm(other), d1, m, t, AddCreate(next), c);
    var d' := Section(lang, d1, AddCreate(next), c).0;
    GoesOn(lang, Calm(other), State(d, m), At(d1, m, t, AddCreate(next)), At(d', m, t, Done(Id(id))));
  }

  lemma Creates(lang: Language, d: Shared, next: Record, c: Choice)
    ensures Section(lang, d, AddCreate(next), c).1 == Done(Id(next.id))
      && Section(lang, d, AddCreate(next), c).0.records == d.records[next.id := next]
  {
  }

  /** A removal with a verified form takes the record away and leaves the rest. */
  lemma RemoveForgets(lang: Language, other: ConnectionId, d: Shared, m: map<nat, Phase>, t: nat, id: ConnectionId)
    requires id in d.records && id !in d.unreadable && ActiveDebug(d, id).None? && IdleIn(m, t)
    requires FreeOf(m, t, Index) && FreeOf(m, t, Connection(id))
    ensures exists d' ::
      Goes(lang, Calm(other), State(d, m), At(d', m, t, Done(Unit)))
      && d'.records == d.records - {id} && d'.markers == d.markers
  {
    hide Goes, FreeOf, At;
    var s, c := State(d, m), Good(id);
    var p0, p1, p2 := RemoveWantIndex(id, Verified, 0), RemoveIndexed(id, Verified, 0), RemoveWantConn(id, Verified);
    Arrives(lang, Calm(other), d, m, t, RemoveRequest(id, Verified), 0);
    Acquires(lang, Calm(other), d, m, t, p0);
    GoesOn(lang, Calm(other), s, At(d, m, t, p0), At(d, m, t, p1));
    Runs(lang, Calm(other), d, m, t, p1, c);
    GoesOn(lang, Calm(other), s, At(d, m, t, p1), At(d, m, t, p2));
    Acquires(lang, Calm(other), d, m, t, p2);
    GoesOn(lang, Calm(other), s, At(d, m, t, p2), At(d, m, t, RemoveLocked(id, Verified)));
    Runs(lang, Calm(other), d, m, t, RemoveLocked(id, Verified), c);
    GoesOn(lang, Calm(other), s, At(d, m, t, RemoveLocked(id, Verified)),
           At(d.(records := d.records - {id}, unreadable := d.unreadable - {id}), m, t, Done(Unit)));
  }

  lemma EditWrites(lang: Language, d: Shared, id: ConnectionId, edit: Edit)
    requires Lawful(lang) && id in d.records && id !in d.unreadable && d.records[id].id == id
    requires edit.SetMode? ==> edit.form == Verified
    ensures var (d', p) := EditSection(lang, d, id, edit, 0);
      p.Done? && (p.reply == Unit || p.reply == InvalidLink) && EditMeans(lang, id, edit, p.reply, d, d')
  {
  }

  /** A setting is stored, or refused because its links do not validate. */
  lemma EditStores(
      lang: Language, other: ConnectionId, d: Shared, m: map<nat, Phase>, t: nat, id: ConnectionId, edit: Edit)
    requires Lawful(lang) && id in d.records && id !in d.unreadable && d.records[id].id == id
    requires other != id && IdleIn(m, t) && FreeOf(m, t, Connection(id)) && (edit.SetMode? ==> edit.form == Verified)
    ensures exists d', reply ::
      && Goes(lang, Calm(other), State(d, m), At(d', m, t, Done(reply)))
      && (reply == Unit || reply == InvalidLink) && EditMeans(lang, id, edit, reply, d, d')
  {
    hide Goes, FreeOf, At, EditSection, EditMeans, Lawful;
    EditWrites(lang, d, id, edit);
    EditRuns(lang, Calm(other), d, m, t, id, edit, 0);
    var (d', p) := EditSection(lang, d, id, edit, 0);
    assert p == Done(p.reply);
  }

  // ---- disconnect, resubmission, rollback, sweep ---------------------------------------------------------

  /** A user's disconnect ends with the flag on disk, the interface quiet and the marker gone. */
  lemma UserDisconnects(lang: Language, d: Shared, m: map<nat, Phase>, t: nat, id: ConnectionId)
    requires id in d.records && d.records[id].id == id && id !in d.unreadable && IdleIn(m, t)
    requires FreeOf(m, t, Connection(id)) && FreeOf(m, t, Network)
    ensures exists d' ::
      && Goes(lang, Calm(id), State(d, m), At(d', m, t, Done(Unit)))
      && Quiet(d', id) && id !in d'.markers && OthersSame(d, d', id)
      && d'.records == d.records[id := d.records[id].(userDisconnected := true)]
  {
    hide Goes, FreeOf, TornDown, OthersSame, Quiet;
    var flagged := d.records[id].(userDisconnected := true);
    var down := DisconnectedState(d, id);
    DisconnectCompletes(lang, d, m, t, id);
    var s := At(down, m, t, DownClear(id, Finish));
    DisconnectAnswers(lang, s, t, id);
    var d' := TornDown(Save(d, flagged), id);
    assert s.threads[t := Done(Unit)] == m[t := Done(Unit)];
    DisconnectedIsTornDown(d, id);
    GoesOn(lang, Calm(id), State(d, m), s, At(d', m, t, Done(Unit)));
    TornDownFacts(Save(d, flagged), id);
    SaveOthersSame(d, flagged);
    OthersSameTransitive(d, Save(d, flagged), d', id);
  }

  lemma SessionReaches(
      lang: Language, other: ConnectionId, d: Shared, m: map<nat, Phase>, t: nat, id: ConnectionId)
    requires id in d.records && id !in d.unreadable && IdleIn(m, t) && FreeOf(m, t, Connection(id))
    ensures Goes(lang, Calm(other), State(d, m), At(d, m, t, DownLoad(id, Finish)))
  {
    hide Goes, FreeOf, At;
    var s, first := State(d, m), DisconnectWantConn(id, false, 0);
    Arrives(lang, Calm(other), d, m, t, DisconnectRequest(id, false), 0);
    Acquires(lang, Calm(other), d, m, t, first);
    GoesOn(lang, Calm(other), s, At(d, m, t, first), At(d, m, t, Acquired(first)));
    Runs(lang, Calm(other), d, m, t, DisconnectMark(id, false, 0), Good(id));
    GoesOn(lang, Calm(other), s, At(d, m, t, Acquired(first)), At(d, m, t, DownLoad(id, Finish)));
  }

  /** A disconnect for a session's end takes the tunnel down and leaves every record as it was. */
  lemma SessionDisconnects(
      lang: Language, other: ConnectionId, d: Shared, m: map<nat, Phase>, t: nat, id: ConnectionId)
    requires id in d.records && id !in d.unreadable && IdleIn(m, t)
    requires FreeOf(m, t, Connection(id)) && FreeOf(m, t, Network)
    ensures exists d' ::
      && Goes(lang, Calm(other), State(d, m), At(d', m, t, Done(Unit)))
      && Quiet(d', id) && id !in d'.markers && OthersSame(d, d', id) && d'.records == d.records
  {
    hide Goes, FreeOf, TornDown, OthersSame, Quiet, At;
    SessionReaches(lang, other, d, m, t, id);
    TearsDown(lang, other, d, m, t, id, Finish);
    TornDownFacts(d, id);
    GoesOn(lang, Calm(other), State(d, m), At(d, m, t, DownLoad(id, Finish)), At(TornDown(d, id), m, t, Done(Unit)));
  }

  /** A connect of a tunnel that runs its current configuration succeeds and leaves it as it is. */
  lemma RunningConnects(
      lang: Language, other: ConnectionId, d: Shared, m: map<nat, Phase>, t: nat, id: ConnectionId, n: nat,
      debug: bool)
    requires Running(d, id, n) && id !in d.unreadable && Reparses(lang, d.records[id])
    requires |d.records[id].config.peers| == 1 && !d.records[id].userDisconnected && other != id && IdleIn(m, t)
    requires FreeOf(m, t, Connection(id)) && FreeOf(m, t, Network)
    ensures Goes(lang, Calm(other), State(d, m), At(d, m, t, Done(Unit)))
  {
    hide Goes, FreeOf, HelperOn, Reparses, At, Save;
    var s, r, c, first := State(d, m), d.records[id], Good(id), ConnectWantConn(id, debug, User, 0);
    Arrives(lang, Calm(other), d, m, t, ConnectRequest(id, debug, User), 0);
    Acquires(lang, Calm(other), d, m, t, first);
    GoesOn(lang, Calm(other), s, At(d, m, t, first), At(d, m, t, Acquired(first)));
    Runs(lang, Calm(other), d, m, t, Acquired(first), c);
    GoesOn(lang, Calm(other), s, At(d, m, t, Acquired(first)), At(d, m, t, UpLoad(id, debug)));
    RunningLoads(lang, other, d, m, t, id, n, debug);
    GoesOn(lang, Calm(other), s, At(d, m, t, UpLoad(id, debug)), At(d, m, t, Done(Unit)));
  }

  lemma RunningLoads(
      lang: Language, other: ConnectionId, d: Shared, m: map<nat, Phase>, t: nat, id: ConnectionId, n: nat,
      debug: bool)
    requires Running(d, id, n) && id !in d.unreadable && Reparses(lang, d.records[id])
    requires |d.records[id].config.peers| == 1 && FreeOf(m, t, Network)
    ensures Goes(lang, Calm(other), At(d, m, t, UpLoad(id, debug)), At(d, m, t, Done(Unit)))
  {
    hide Goes, FreeOf, Reparses, At;
    var s, r, c := At(d, m, t, UpLoad(id, debug)), d.records[id], Good(id);
    assert HelperOn(d, r.interface);
    Runs(lang, Calm(other), d, m, t, UpLoad(id, debug), c);
    Acquires(lang, Calm(other), d, m, t, UpWantClear(r, debug));
    GoesOn(lang, Calm(other), s, At(d, m, t, UpWantClear(r, debug)), At(d, m, t, UpClear(r, debug)));
    Runs(lang, Calm(other), d, m, t, UpClear(r, debug), c);
    GoesOn(lang, Calm(other), s, At(d, m, t, UpClear(r, debug)), At(d, m, t, UpCheck(r, debug)));
    Runs(lang, Calm(other), d, m, t, UpCheck(r, debug), c);
    GoesOn(lang, Calm(other), s, At(d, m, t, UpCheck(r, debug)), At(d, m, t, UpOk(r)));
    Runs(lang, Calm(other), d, m, t, UpOk(r), c);
    GoesOn(lang, Calm(other), s, At(d, m, t, UpOk(r)), At(d, m, t, Done(Unit)));
  }

  lemma DisconnectedIsTornDown(d: Shared, id: ConnectionId)
    requires id in d.records
    ensures var down := DisconnectedState(d, id);
      down.(markers := down.markers - {id}) == TornDown(Save(d, d.records[id].(userDisconnected := true)), id)
  {
  }

  lemma SaveOthersSame(d: Shared, next: Record)
    ensures OthersSame(d, Save(d, next), next.id)
  {
  }

  /** What an identical resubmission asks of the existing record. */
  predicate Resubmittable(lang: Language, d: Shared, a: Add, config: Config, id: ConnectionId) {
    && a.form == Verified && d.unreadable == {} && lang.parse(Effective(lang, a.text, a.mtu)) == Some(config)
    && id in d.records && d.records[id].id == id && FoundIdentity(d, lang.fingerprint(config), a.global, a.owner, id)
    && (a.name.None? || a.name == d.records[id].name || a.force || !NameTaken(d, a.name.value, a.global, a.owner))
  }

  /**
    The record after the resubmission: only name, source path and mode, and the flag if the mode lands on
    Automatic.
   */
  predicate Updated(r: Record, a: Add, r': Record) {
    && r' == r.(name := r'.name, sourcePath := r'.sourcePath, mode := r'.mode, userDisconnected := r'.userDisconnected)
    && (a.name.Some? ==> r'.name == a.name) && (a.name.None? ==> r'.name == r.name)
    && (a.source.Some? ==> r'.sourcePath == a.source) && (a.source.None? ==> r'.sourcePath == r.sourcePath)
    && r'.mode == a.mode
    && (r'.userDisconnected <==> r.userDisconnected && !(a.mode == Automatic && r.mode != Automatic))
  }

  lemma ResubmissionDecided(lang: Language, d: Shared, a: Add, config: Config, id: ConnectionId)
    requires Resubmittable(lang, d, a, config, id)
    ensures var (d', p) := Section(lang, d, AddIndexed(a), Good(id));
      && d' == d.(forced := d'.forced)
      && Updated(d.records[id], a, Resubmitted(d.records[id], a))
      && (p.AddWantConn? ==> p.next == Resubmitted(d.records[id], a))
      && (!p.AddWantConn? ==> p == Done(Id(id)) && d' == d && Resubmitted(d.records[id], a) == d.records[id])
  {
    hide NameTaken;
  }

  /** A resubmission of a stored configuration returns its id and updates exactly the metadata it names. */
  lemma ResubmissionUpdates(
      lang: Language, other: ConnectionId, d: Shared, m: map<nat, Phase>, t: nat, a: Add, uid: nat, config: Config,
      id: ConnectionId)
    requires Resubmittable(lang, d, a, config, id) && AddAccepted(a, uid) && other != id && IdleIn(m, t)
    requires FreeOf(m, t, Index) && FreeOf(m, t, Connection(id))
    ensures exists d' ::
      && Goes(lang, Calm(other), State(d, m), At(d', m, t, Done(Id(id))))
      && id in d'.records && Updated(d.records[id], a, d'.records[id]) && d'.records == d.records[id := d'.records[id]]
      && d'.markers == d.markers && d'.sockets == d.sockets && d'.live == d.live
  {
    hide Goes, FreeOf, At, Section, Resubmittable, AddAccepted, Updated;
    ResubmittedId(lang, d, a, config, id);
    var s, c, next := State(d, m), Good(id), Resubmitted(d.records[id], a);
    Arrives(lang, Calm(other), d, m, t, AddRequest(a), uid);
    Acquires(lang, Calm(other), d, m, t, AddWantIndex(a));
    GoesOn(lang, Calm(other), s, At(d, m, t, AddWantIndex(a)), At(d, m, t, AddIndexed(a)));
    ResubmissionDecided(lang, d, a, config, id);
    var (d1, p) := Section(lang, d, AddIndexed(a), c);
    Runs(lang, Calm(other), d, m, t, AddIndexed(a), c);
    GoesOn(lang, Calm(other), s, At(d, m, t, AddIndexed(a)), At(d1, m, t, p));
    if p.AddWantConn? {
      Acquires(lang, Calm(other), d1, m, t, p);
      GoesOn(lang, Calm(other), s, At(d1, m, t, p), At(d1, m, t, AddHaveConn(next, p.moves)));
      CopyWritten(lang, d1, next, p.moves, c);
      Runs(lang, Calm(other), d1, m, t, AddHaveConn(next, p.moves), c);
      GoesOn(lang, Calm(other), s, At(d1, m, t, AddHaveConn(next, p.moves)), At(Save(d1, next), m, t, Done(Id(id))));
    }
  }

  lemma ResubmittedId(lang: Language, d: Shared, a: Add, config: Config, id: ConnectionId)
    requires Resubmittable(lang, d, a, config, id)
    ensures id in d.records && Resubmitted(d.records[id], a).id == id
  {
  }

  lemma CopyWritten(lang: Language, d: Shared, next: Record, moves: bool, c: Choice)
    ensures Section(lang, d, AddHaveConn(next, moves), c) == (Save(d, next), Done(Id(next.id)))
  {
  }

  /** A failing PostUp takes the helper it had started down again and leaves the marker alone. */
  lemma FailedPostUpRollsBack(
      lang: Language, other: ConnectionId, d: Shared, m: map<nat, Phase>, t: nat, stored: Record, debug: bool, n: nat)
    requires stored.interface == InterfaceName(stored.id) && FreeOf(m, t, Network)
    ensures exists d' ::
      && Goes(lang, Calm(other), At(d, m, t, UpPost(stored, debug, n)), At(d', m, t, Done(Failed)))
      && Quiet(d', stored.id) && d'.records == d.records && d'.markers == d.markers
  {
    hide Goes, FreeOf, At;
    var s, hookFails := At(d, m, t, UpPost(stored, debug, n)), Choice(stored.id, false, false, false);
    Runs(lang, Calm(other), d, m, t, UpPost(stored, debug, n), hookFails);
    Acquires(lang, Calm(other), d, m, t, UpWantRollback(stored));
    GoesOn(lang, Calm(other), s, At(d, m, t, UpWantRollback(stored)), At(d, m, t, UpRollback(stored)));
    Runs(lang, Calm(other), d, m, t, UpRollback(stored), Good(stored.id));
    GoesOn(lang, Calm(other), s, At(d, m, t, UpRollback(stored)),
           At(BringDown(d, stored.interface), m, t, Done(Failed)));
  }

  /** The state after the sweep of a dead helper. */
  function Swept(d: Shared, id: ConnectionId): Shared {
    Unlink(d, InterfaceName(id)).(markers := d.markers - {id})
  }

  lemma SweepSections(lang: Language, d: Shared, id: ConnectionId)
    requires id in d.records && id !in d.unreadable && !HelperOn(d, InterfaceName(id))
    ensures var d1 := Unlink(d, InterfaceName(id));
      && Section(lang, d, SweepRun(id), Good(id)) == (d1, SweepWantConn(id))
      && Section(lang, d1, SweepLocked(id), Good(id)) == (Swept(d, id), Done(Unit))
  {
    hide HelperOn;
  }

  lemma SweptFacts(d: Shared, id: ConnectionId)
    ensures var d' := Swept(d, id);
      InterfaceName(id) !in d'.sockets && id !in d'.markers && d'.records == d.records && OthersSame(d, d', id)
  {
  }

  /** The sweep after a crash leaves neither socket nor marker behind, and no record changes. */
  lemma SweepForgets(lang: Language, other: ConnectionId, d: Shared, m: map<nat, Phase>, t: nat, id: ConnectionId)
    requires id in d.records && id !in d.unreadable && !HelperOn(d, InterfaceName(id)) && IdleIn(m, t)
    requires FreeOf(m, t, Network) && FreeOf(m, t, Connection(id))
    ensures exists d' ::
      && Goes(lang, Calm(other), State(d, m), At(d', m, t, Done(Unit)))
      && InterfaceName(id) !in d'.sockets && id !in d'.markers && d'.records == d.records && OthersSame(d, d', id)
  {
    hide Goes, FreeOf, At, HelperOn, Section, OthersSame, Swept, Unlink;
    var s, c, d1 := State(d, m), Good(id), Unlink(d, InterfaceName(id));
    SweepSections(lang, d, id);
    Arrives(lang, Calm(other), d, m, t, SweepRequest(id), 0);
    Acquires(lang, Calm(other), d, m, t, SweepWantNetwork(id));
    GoesOn(lang, Calm(other), s, At(d, m, t, SweepWantNetwork(id)), At(d, m, t, SweepRun(id)));
    Runs(lang, Calm(other), d, m, t, SweepRun(id), c);
    GoesOn(lang, Calm(other), s, At(d, m, t, SweepRun(id)), At(d1, m, t, SweepWantConn(id)));
    Acquires(lang, Calm(other), d1, m, t, SweepWantConn(id));
    GoesOn(lang, Calm(other), s, At(d1, m, t, SweepWantConn(id)), At(d1, m, t, SweepLocked(id)));
    Runs(lang, Calm(other), d1, m, t, SweepLocked(id), c);
    GoesOn(lang, Calm(other), s, At(d1, m, t, SweepLocked(id)), At(Swept(d, id), m, t, Done(Unit)));
    SweptFacts(d, id);
  }
}
