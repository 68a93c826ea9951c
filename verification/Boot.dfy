/**
  Boot reconciliation (src/privileged/connection_store.rs): at every daemon wake
  the global automatic connections are brought up, once per boot. The passes are
  part of a run of the daemon: each attempt is a request of that run, and its
  result is the answer the request got there.
 */
module Boot {
  import opened Wrappers
  import opened Text
  import opened Records
  import opened Daemon
  import opened DaemonInvariant
  import opened DaemonRuns
  import opened DaemonOutcomes
  import opened DaemonAnswers

  /** A stored connection as the pass sees it; `active` is unknown when the check fails. */
  datatype Listed = Listed(
    id: ConnectionId, global: bool, mode: StartMode, userDisconnected: bool, active: Option<bool>)

  datatype Attempt = Attempt(id: ConnectionId, reply: Reply)

  /** Where in the run of the daemon an attempt took place. */
  datatype Place = Place(arrived: nat, answered: nat, thread: nat)

  /** One wake: when it listed the store, what it found, and how `reconcile_connect` ended for each candidate. */
  datatype Wake = Wake(
    boot: Option<string>,
    listedAt: nat,
    listing: Option<seq<Listed>>,
    reply: ConnectionId -> Reply,
    place: ConnectionId -> Place,
    markWritten: bool)

  /** `boot_id`: seconds and microseconds of the boot time. */
  function BootId(seconds: nat, micros: nat): string {
    Decimal(seconds) + "." + Decimal(micros)
  }

  predicate IsCandidate(c: Listed) {
    c.global && c.mode == Automatic && !c.userDisconnected && c.active != Some(true)
  }

  /** `boot_reconcile_candidates`. */
  function Candidates(connections: seq<Listed>): seq<ConnectionId> {
    if connections == [] then [] else
    var last := connections[|connections| - 1];
    Candidates(connections[..|connections| - 1]) + (if IsCandidate(last) then [last.id] else [])
  }

  function Attempts(ids: seq<ConnectionId>, reply: ConnectionId -> Reply): (r: seq<Attempt>)
    ensures |r| == |ids| && forall i :: 0 <= i < |r| ==> r[i] == Attempt(ids[i], reply(ids[i]))
  {
    seq(|ids|, i requires 0 <= i < |ids| => Attempt(ids[i], reply(ids[i])))
  }

  predicate AllSucceeded(attempts: seq<Attempt>) {
    forall i :: 0 <= i < |attempts| ==> attempts[i].reply == Unit
  }

  /** What one pass attempts, and whether it is complete. */
  function PassAttempts(w: Wake): seq<Attempt> {
    match w.listing
    case None => []
    case Some(connections) => Attempts(Candidates(connections), w.reply)
  }

  predicate Complete(w: Wake) {
    w.listing.Some? && AllSucceeded(PassAttempts(w))
  }

  /** The marker file says this boot is done. */
  predicate Reconciled(marker: Option<string>, boot: string) {
    marker.Some? && Trim(marker.value) == boot
  }

  /** `reconcile_boot_once`. */
  method ReconcileBootOnce(w: Wake) returns (attempts: seq<Attempt>, allSucceeded: bool)
    ensures attempts == PassAttempts(w) && allSucceeded == Complete(w)
  {
    if w.listing.None? {
      return [], false;
    }
    var candidates := Candidates(w.listing.value);
    attempts, allSucceeded := [], true;
    for i := 0 to |candidates|
      invariant attempts == Attempts(candidates[..i], w.reply) && allSucceeded == AllSucceeded(attempts)
    {
      var reply := w.reply(candidates[i]);
      attempts := attempts + [Attempt(candidates[i], reply)];
      if reply != Unit {
        assert attempts[i].reply != Unit;
        allSucceeded := false;
      }
    }
    assert candidates[..|candidates|] == candidates;
  }

  /** The marker and the attempts after a wake. */
  function Woken(marker: Option<string>, w: Wake): (Option<string>, seq<Attempt>) {
    match w.boot
    case None => (marker, PassAttempts(w))
    case Some(boot) =>
      if Reconciled(marker, boot) then (marker, [])
      else (if Complete(w) && w.markWritten then Some(boot) else marker, PassAttempts(w))
  }

  /** The store's marker file. */
  class Store {
    var marker: Option<string>

    constructor ()
      ensures marker == None
    {
      marker := None;
    }

    /** `reconcile_boot`. */
    method ReconcileBoot(w: Wake) returns (attempts: seq<Attempt>)
      modifies this
      ensures (marker, attempts) == Woken(old(marker), w)
    {
      if w.boot.Some? {
        if Reconciled(marker, w.boot.value) {
          return [];
        }
        var allSucceeded;
        attempts, allSucceeded := ReconcileBootOnce(w);
        if allSucceeded && w.markWritten {
          marker := w.boot;
        }
      } else {
        var ignored;
        attempts, ignored := ReconcileBootOnce(w);
      }
    }
  }

  // ---- over many wakes ------------------------------------------------------------------------------

  function MarkerAfter(marker: Option<string>, wakes: seq<Wake>): Option<string> {
    if wakes == [] then marker else Woken(MarkerAfter(marker, wakes[..|wakes| - 1]), wakes[|wakes| - 1]).0
  }

  /** What wake `k` attempted. */
  function AttemptedAt(marker: Option<string>, wakes: seq<Wake>, k: nat): seq<Attempt>
    requires k < |wakes|
  {
    Woken(MarkerAfter(marker, wakes[..k]), wakes[k]).1
  }

  /** Wake `k` was in this boot, completed its pass and got its marker written. */
  predicate Settles(wakes: seq<Wake>, k: nat, boot: string)
    requires k < |wakes|
  {
    wakes[k].boot == Some(boot) && Complete(wakes[k]) && wakes[k].markWritten
  }

  /** Wake `k` found its boot marked and did nothing. */
  predicate Skips(marker: Option<string>, wakes: seq<Wake>, k: nat)
    requires k < |wakes|
  {
    wakes[k].boot.Some? && Reconciled(MarkerAfter(marker, wakes[..k]), wakes[k].boot.value)
  }

  /** Boot ids carry no white space, so that the marker reads back as written. */
  predicate PlainBoots(wakes: seq<Wake>) {
    forall k :: 0 <= k < |wakes| && wakes[k].boot.Some? ==> Trim(wakes[k].boot.value) == wakes[k].boot.value
  }

  /** The marker names a boot only after a complete pass in that very boot, which no earlier wake had marked. */
  lemma {:induction false} MarkedAfterComplete(marker: Option<string>, wakes: seq<Wake>, boot: string)
    requires PlainBoots(wakes) && !Reconciled(marker, boot) && Reconciled(MarkerAfter(marker, wakes), boot)
    ensures exists k :: 0 <= k < |wakes| && Settles(wakes, k, boot) && !Skips(marker, wakes, k)
  {
    if wakes != [] {
      var init, n := wakes[..|wakes| - 1], |wakes| - 1;
      if Reconciled(MarkerAfter(marker, init), boot) {
        MarkedAfterComplete(marker, init, boot);
        var k :| 0 <= k < |init| && Settles(init, k, boot) && !Skips(marker, init, k);
        assert init[..k] == wakes[..k];
        assert Settles(wakes, k, boot) && !Skips(marker, wakes, k);
      } else {
        assert Settles(wakes, n, boot) && !Skips(marker, wakes, n);
      }
    }
  }

  /** All wakes belong to one boot. */
  predicate OneBoot(wakes: seq<Wake>, boot: string) {
    forall k :: 0 <= k < |wakes| ==> wakes[k].boot == Some(boot)
  }

  lemma {:induction false} ReconciledExactly(marker: Option<string>, wakes: seq<Wake>, boot: string)
    requires Trim(boot) == boot && OneBoot(wakes, boot) && !Reconciled(marker, boot)
    ensures Reconciled(MarkerAfter(marker, wakes), boot) <==> exists k :: 0 <= k < |wakes| && Settles(wakes, k, boot)
  {
    hide Complete, Trim;
    if wakes != [] {
      var init, n := wakes[..|wakes| - 1], |wakes| - 1;
      ReconciledExactly(marker, init, boot);
      OneMoreWake(wakes, boot);
      assert Reconciled(MarkerAfter(marker, wakes), boot) <==>
        Reconciled(MarkerAfter(marker, init), boot) || Settles(wakes, n, boot);
    }
  }

  lemma OneMoreWake(wakes: seq<Wake>, boot: string)
    requires wakes != []
    ensures var n := |wakes| - 1;
      (exists k :: 0 <= k < |wakes| && Settles(wakes, k, boot))
        <==> (exists k :: 0 <= k < n && Settles(wakes[..n], k, boot)) || Settles(wakes, n, boot)
  {
    hide Complete;
    var init := wakes[..|wakes| - 1];
    if k :| 0 <= k < |init| && Settles(init, k, boot) {
      assert Settles(wakes, k, boot);
    }
    if k :| 0 <= k < |init| && Settles(wakes, k, boot) {
      assert Settles(init, k, boot);
    }
  }

  /**
    Within one boot: a wake after a complete and marked pass attempts nothing at
    all; every other wake retries its whole pass.
   */
  lemma OncePerBoot(marker: Option<string>, wakes: seq<Wake>, boot: string, k: nat)
    requires Trim(boot) == boot && OneBoot(wakes, boot) && !Reconciled(marker, boot) && k < |wakes|
    ensures (exists j :: 0 <= j < k && Settles(wakes, j, boot)) ==> AttemptedAt(marker, wakes, k) == []
    ensures (forall j :: 0 <= j < k ==> !Settles(wakes, j, boot))
      ==> AttemptedAt(marker, wakes, k) == PassAttempts(wakes[k])
  {
    var before := wakes[..k];
    ReconciledExactly(marker, before, boot);
    assert forall j :: 0 <= j < k ==> Settles(before, j, boot) == Settles(wakes, j, boot);
    if j :| 0 <= j < k && Settles(wakes, j, boot) {
      assert Settles(before, j, boot);
    }
  }

  // ---- in a run of the daemon -----------------------------------------------------------------------------

  /** The lenient listing: exactly the readable records, each as it is stored. */
  ghost predicate Lists(d: Shared, connections: seq<Listed>) {
    && (forall id :: id in d.records && id !in d.unreadable ==>
          exists n :: 0 <= n < |connections| && connections[n].id == id)
    && (forall n :: 0 <= n < |connections| ==>
          && connections[n].id in d.records && connections[n].id !in d.unreadable
          && var r := d.records[connections[n].id];
             connections[n] == Listed(r.id, r.global, r.mode, r.userDisconnected, connections[n].active))
  }

  /** The attempt at `id` is a boot request of the run, and its success is the answer the request got. */
  ghost predicate AttemptedIn(lang: Language, start: State, steps: seq<Step>, w: Wake, id: ConnectionId)
    requires Possible(lang, start, steps)
  {
    var at := w.place(id);
    && Serves(steps, at.arrived, at.answered, at.thread) && steps[at.arrived].request == BootRequest(id)
    && w.listedAt <= at.arrived
    && (w.reply(id) == Unit ==> PhaseAt(lang, start, steps, at.answered, at.thread) == Done(Unit))
  }

  /** The wake is part of the run. */
  ghost predicate HappensIn(lang: Language, start: State, steps: seq<Step>, w: Wake)
    requires Possible(lang, start, steps)
  {
    w.listing.Some? ==>
      && w.listedAt <= |steps| && Lists(StateAt(lang, start, steps, w.listedAt).shared, w.listing.value)
      && forall id :: id in Candidates(w.listing.value) ==> AttemptedIn(lang, start, steps, w, id)
  }

  /** Exactly what starts by itself for the whole machine, was not taken down, and is not known to be up. */
  lemma {:induction false} CandidatesAre(connections: seq<Listed>, id: ConnectionId)
    ensures id in Candidates(connections) <==>
      exists n ::
        && 0 <= n < |connections| && connections[n].id == id
        && connections[n].global && connections[n].mode == Automatic && !connections[n].userDisconnected
        && connections[n].active != Some(true)
  {
    if connections != [] {
      var init, last := connections[..|connections| - 1], |connections| - 1;
      CandidatesAre(init, id);
      if n :| 0 <= n < |init| && init[n].id == id && IsCandidate(init[n]) {
        assert connections[n].id == id && IsCandidate(connections[n]);
      }
      if n :| 0 <= n < |connections| && connections[n].id == id && IsCandidate(connections[n]) {
        assert n < last ==> init[n] == connections[n];
      }
    }
  }

  /** A pass attempts nothing that was not a readable global automatic connection, not taken down, when it listed. */
  lemma AttemptsAreDue(lang: Language, start: State, steps: seq<Step>, w: Wake, n: nat)
    requires Possible(lang, start, steps) && HappensIn(lang, start, steps, w) && n < |PassAttempts(w)|
    ensures w.listing.Some? && w.listedAt <= |steps|
    ensures var d, id := StateAt(lang, start, steps, w.listedAt).shared, PassAttempts(w)[n].id;
      && id in d.records && id !in d.unreadable
      && d.records[id].global && d.records[id].mode == Automatic && !d.records[id].userDisconnected
  {
    var id := PassAttempts(w)[n].id;
    assert id in Candidates(w.listing.value);
    CandidatesAre(w.listing.value, id);
  }

  /** The listing shows a readable global automatic connection that the user has not taken down, and not as active. */
  ghost predicate Due(d: Shared, connections: seq<Listed>, id: ConnectionId) {
    && id in d.records && id !in d.unreadable
    && d.records[id].global && d.records[id].mode == Automatic && !d.records[id].userDisconnected
    && forall n :: 0 <= n < |connections| && connections[n].id == id ==> connections[n].active != Some(true)
  }

  /** At step `j` a thread with the connection's lock found the user's disconnect, or the current configuration up. */
  ghost predicate SettledAt(lang: Language, start: State, steps: seq<Step>, j: nat, id: ConnectionId)
    requires Possible(lang, start, steps) && j < |steps|
  {
    var d := StateAt(lang, start, steps, j).shared;
    && (exists t :: HoldsConnection(PhaseAt(lang, start, steps, j, t)) == Some(id))
    && id in d.records
    && (d.records[id].userDisconnected
        || (MarkedCurrent(d, d.records[id]) && LaunchOk(lang, d.launches[d.markers[d.records[id].id].socket])))
  }

  /** A complete pass has settled every connection that was due. */
  lemma CompleteSettles(lang: Language, start: State, steps: seq<Step>, w: Wake, id: ConnectionId) returns (j: nat)
    requires Lawful(lang) && Init(start) && Possible(lang, start, steps) && HappensIn(lang, start, steps, w)
    requires Complete(w) && Due(StateAt(lang, start, steps, w.listedAt).shared, w.listing.value, id)
    ensures w.listedAt < j < |steps| && SettledAt(lang, start, steps, j, id)
  {
    hide Lawful, Enabled, Apply, MarkedCurrent, LaunchOk, HoldsConnection, Init;
    var ids, at := Candidates(w.listing.value), w.place(id);
    CandidatesAre(w.listing.value, id);
    assert id in ids;
    var n :| 0 <= n < |ids| && ids[n] == id;
    assert Attempts(ids, w.reply)[n].reply == Unit;
    j := ReconciliationAnswers(lang, start, steps, at.arrived, at.answered, at.thread, id);
    assert HoldsConnection(PhaseAt(lang, start, steps, j, at.thread)) == Some(id);
  }

  /**
    Over any number of wakes, those that do not skip being part of a run of the
    daemon: once the marker names a boot, some wake of that boot settled every
    connection that was due when it listed the store.
   */
  lemma MarkedAfterSettled(
      lang: Language, start: State, steps: seq<Step>, marker: Option<string>, wakes: seq<Wake>, boot: string)
    requires Lawful(lang) && Init(start) && Possible(lang, start, steps)
    requires forall k :: 0 <= k < |wakes| && !Skips(marker, wakes, k) ==> HappensIn(lang, start, steps, wakes[k])
    requires PlainBoots(wakes) && !Reconciled(marker, boot) && Reconciled(MarkerAfter(marker, wakes), boot)
    ensures exists k ::
      && 0 <= k < |wakes| && Settles(wakes, k, boot) && !Skips(marker, wakes, k) && wakes[k].listedAt <= |steps|
      && forall id :: Due(StateAt(lang, start, steps, wakes[k].listedAt).shared, wakes[k].listing.value, id) ==>
           exists j :: wakes[k].listedAt < j < |steps| && SettledAt(lang, start, steps, j, id)
  {
    hide Lawful, Enabled, Apply, Init, SettledAt, Due, AttemptedIn, Skips;
    MarkedAfterComplete(marker, wakes, boot);
    var k :| 0 <= k < |wakes| && Settles(wakes, k, boot) && !Skips(marker, wakes, k);
    assert HappensIn(lang, start, steps, wakes[k]);
    forall id | Due(StateAt(lang, start, steps, wakes[k].listedAt).shared, wakes[k].listing.value, id)
      ensures exists j :: wakes[k].listedAt < j < |steps| && SettledAt(lang, start, steps, j, id)
    {
      var j := CompleteSettles(lang, start, steps, wakes[k], id);
    }
  }

  // ---- boot ids -----------------------------------------------------------------------------------------

  lemma BootIdPlain(seconds: nat, micros: nat)
    ensures Trim(BootId(seconds, micros)) == BootId(seconds, micros)
  {
    var a, b := Decimal(seconds), Decimal(micros);
    var id := BootId(seconds, micros);
    forall c | c in id
      ensures !IsSpace(c)
    {
      var i :| 0 <= i < |id| && id[i] == c;
      assert i < |a| ==> c == a[i];
      assert i > |a| ==> c == b[i - |a| - 1];
    }
    TrimPlain(id);
  }

  /** Within the boot that began at this time: nothing after a settled pass, the whole pass before. */
  lemma OncePerBootTime(marker: Option<string>, wakes: seq<Wake>, seconds: nat, micros: nat, k: nat)
    requires OneBoot(wakes, BootId(seconds, micros)) && !Reconciled(marker, BootId(seconds, micros)) && k < |wakes|
    ensures AttemptedAt(marker, wakes, k) ==
      if exists j :: 0 <= j < k && Settles(wakes, j, BootId(seconds, micros)) then [] else PassAttempts(wakes[k])
  {
    hide Complete, Trim, BootId;
    BootIdPlain(seconds, micros);
    OncePerBoot(marker, wakes, BootId(seconds, micros), k);
  }

  /** Different boot times have different ids, so a marker never stands for another boot. */
  lemma BootIdInjective(s: nat, u: nat, s': nat, u': nat)
    requires BootId(s, u) == BootId(s', u')
    ensures s == s' && u == u'
  {
    var a, b := Decimal(s), Decimal(u);
    var a', b' := Decimal(s'), Decimal(u');
    NoDot(s);
    NoDot(s');
    SplitOnceAt(a, '.', b);
    SplitOnceAt(a', '.', b');
    assert a + "." + b == a + ['.'] + b && a' + "." + b' == a' + ['.'] + b';
    DecimalReadsBack(s);
    DecimalReadsBack(s');
    DecimalReadsBack(u);
    DecimalReadsBack(u');
  }

  lemma NoDot(n: nat)
    ensures '.' !in Decimal(n)
  {
    var digits := Decimal(n);
    forall i | 0 <= i < |digits|
      ensures digits[i] != '.'
    {
      assert '0' <= digits[i] <= '9';
    }
  }
}
