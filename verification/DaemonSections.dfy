/** Every section keeps the invariant: one lemma per section, then the sections together. */
module DaemonSections {
  import opened Wrappers
  import opened BypassLinks
  import opened Records
  import opened Daemon
  import opened DaemonInvariant
  import opened DaemonEffects

  /** The locks of `q` are among those given. */
  predicate Within(q: Phase, l: Locks, network: bool) {
    && (HoldsIndex(q) ==> l.index)
    && (HoldsConnection(q).Some? ==> HoldsConnection(q) == l.connection)
    && (HoldsNetwork(q) ==> network)
  }

  /** A section that leads from `d` to `r` keeps the invariant and takes no lock. */
  ghost predicate SectionOk(lang: Language, l: Locks, network: bool, d: Shared, r: (Shared, Phase)) {
    Preserved(lang, l, d, r.0) && ThreadOk(lang, r.0, r.1) && Within(r.1, l, network)
  }

  lemma Together(lang: Language, l: Locks, network: bool, d: Shared, d': Shared, p: Phase)
    requires Preserved(lang, l, d, d') && ThreadOk(lang, d', p) && Within(p, l, network)
    ensures SectionOk(lang, l, network, d, (d', p))
  {
  }

  lemma StoredRecord(lang: Language, d: Shared, id: ConnectionId)
    requires DataOk(lang, d) && id in d.records
    ensures RecordOk(lang, d, id, d.records[id])
  {
  }

  lemma AddIsSection(lang: Language, d: Shared, p: Phase, c: Choice)
    requires p.AddIndexed?
    ensures Section(lang, d, p, c) == AddSection(lang, d, p.add, c)
  {
    hide AddSection;
  }

  lemma EditIsSection(lang: Language, d: Shared, p: Phase, c: Choice)
    requires p.EditLocked?
    ensures Section(lang, d, p, c) == EditSection(lang, d, p.id, p.edit, p.uid)
  {
    hide EditSection;
  }

  lemma MatchingMarker(lang: Language, d: Shared, id: ConnectionId)
    requires DataOk(lang, d) && id in d.records && Matching(d, id)
    ensures LaunchIs(d, d.markers[id].socket, InterfaceName(id), d.markers[id].fingerprint)
    ensures d.markers[id].fingerprint != d.records[id].fingerprint ==> id in d.statFaults
  {
  }

  // ---- reaching a phase ---------------------------------------------------------------------

  lemma DoneOk(lang: Language, l: Locks, network: bool, d: Shared, reply: Reply)
    requires reply != Stale && (reply.Mismatch? ==> reply.id in d.statFaults)
    ensures ThreadOk(lang, d, Done(reply)) && Within(Done(reply), l, network)
  {
  }

  lemma Finish(lang: Language, l: Locks, network: bool, d: Shared, d': Shared, reply: Reply)
    requires Preserved(lang, l, d, d')
    requires reply != Stale && (reply.Mismatch? ==> reply.id in d'.statFaults)
    ensures SectionOk(lang, l, network, d, (d', Done(reply)))
  {
    DoneOk(lang, l, network, d', reply);
    Together(lang, l, network, d, d', Done(reply));
  }

  lemma FinishUnchanged(lang: Language, l: Locks, network: bool, d: Shared, reply: Reply)
    requires DataOk(lang, d)
    requires reply != Stale && (reply.Mismatch? ==> reply.id in d.statFaults)
    ensures SectionOk(lang, l, network, d, (d, Done(reply)))
  {
    Unchanged(lang, l, d);
    Finish(lang, l, network, d, d, reply);
  }

  lemma AddPhaseOk(lang: Language, network: bool, d: Shared, p: Phase)
    requires (p.AddWantConn? && CopyOk(lang, d, p.next)) || (p.AddCreate? && NewOk(lang, d, p.next))
             || (p.AddIndexed? && AddOk(p.add))
    ensures ThreadOk(lang, d, p) && Within(p, Locks(true, None), network)
  {
  }

  lemma TouchPhaseOk(lang: Language, network: bool, d: Shared, next: Record)
    requires TouchOk(d, next)
    ensures ThreadOk(lang, d, RefreshTouch(next)) && Within(RefreshTouch(next), Locks(true, Some(next.id)), network)
  {
  }

  lemma RefreshPhaseOk(lang: Language, network: bool, d: Shared, p: Phase)
    requires p.RefreshAuthed? || (p.RefreshWrite? && (p.next.id in d.statFaults || !Matching(d, p.next.id)))
    requires RefreshOk(lang, d, p.next)
    ensures ThreadOk(lang, d, p) && Within(p, Locks(true, Some(p.next.id)), network)
  {
  }

  /** The locks of the disconnect phases depend on what the disconnect is part of. */
  function DownLocks(id: ConnectionId, k: Then): Locks {
    Locks(k.Rewrite?, Some(id))
  }

  lemma DownPhaseOk(lang: Language, network: bool, d: Shared, p: Phase)
    requires p.DownLoad? || p.DownWantNetwork? || p.DownClear?
    requires p.DownLoad? ==> p.id in d.created
    requires !p.DownLoad? ==> p.id in d.records
    requires p.DownClear? ==> InterfaceName(p.id) !in d.sockets && !HelperOn(d, InterfaceName(p.id))
    requires p.then_.Rewrite? ==> p.then_.next.id == p.id && RefreshOk(lang, d, p.then_.next)
    ensures ThreadOk(lang, d, p) && Within(p, DownLocks(p.id, p.then_), network)
  {
  }

  lemma UpLoadPhaseOk(lang: Language, l: Locks, network: bool, d: Shared, id: ConnectionId, debug: bool)
    requires id in d.created && l.connection == Some(id)
    ensures ThreadOk(lang, d, UpLoad(id, debug)) && Within(UpLoad(id, debug), l, network)
  {
  }

  lemma StoredPhaseOk(lang: Language, network: bool, d: Shared, p: Phase)
    requires p.UpWantClear? || p.UpCheck? || p.UpWantRollback? || p.UpWantNetwork? || p.UpPost? || p.UpSave? || p.UpOk?
    requires Here(d, p.stored) && SocketPart(d, p)
    ensures ThreadOk(lang, d, p) && Within(p, Locks(false, Some(p.stored.id)), network)
  {
    hide SocketPart, Here, HoldsNetwork, HoldsIndex;
    StoredPhaseLocks(p);
  }

  lemma StoredPhaseLocks(p: Phase)
    requires p.UpWantClear? || p.UpCheck? || p.UpWantRollback? || p.UpWantNetwork? || p.UpPost? || p.UpSave? || p.UpOk?
    ensures !HoldsIndex(p) && !HoldsNetwork(p)
  {
  }

  // ---- add ------------------------------------------------------------------------------------

  lemma ResubmittedApart(d: Shared, a: Add, existing: Record, forced: bool)
    requires RecordsApart(d) && existing.id in d.records && d.records[existing.id] == existing
    requires d.forced ==> forced
    requires a.force && a.name.Some? ==> forced
    requires Resubmitted(existing, a).name == existing.name || a.force
      || !NameTaken(d, a.name.value, existing.global, existing.owner)
    ensures forall other ::
      other in d.records && other != existing.id ==> Apart(forced, Resubmitted(existing, a), d.records[other])
  {
    forall other | other in d.records && other != existing.id
      ensures Apart(forced, Resubmitted(existing, a), d.records[other])
    {
      assert Apart(d.forced, existing, d.records[other]);
    }
  }

  lemma ResubmittedOk(lang: Language, d: Shared, d': Shared, a: Add, existing: Record)
    requires DataOk(lang, d) && NameOk(a.name) && existing.id in d.records && d.records[existing.id] == existing
    requires AddExisting(d, a, existing) == (d', AddWantConn(Resubmitted(existing, a), a.mode != existing.mode))
    ensures CopyOk(lang, d', Resubmitted(existing, a))
  {
    assert RecordOk(lang, d, existing.id, existing);
    ResubmittedApart(d, a, existing, d'.forced);
  }

  lemma AddExistingOk(lang: Language, d: Shared, a: Add, existing: Record)
    requires DataOk(lang, d) && NameOk(a.name) && existing.id in d.records && d.records[existing.id] == existing
    ensures SectionOk(lang, Locks(true, None), false, d, AddExisting(d, a, existing))
  {
    hide DataOk, Preserved, ThreadOk, SectionOk, NameTaken;
    var (d', p) := AddExisting(d, a, existing);
    History(lang, Locks(true, None), d, d');
    if p.AddWantConn? {
      ResubmittedOk(lang, d, d', a, existing);
      AddPhaseOk(lang, false, d', p);
      Together(lang, Locks(true, None), false, d, d', p);
    } else {
      Finish(lang, Locks(true, None), false, d, d', p.reply);
    }
  }

  lemma NewRecordOk(lang: Language, d: Shared, a: Add, fingerprint: string, config: Config, text: string, c: Choice)
    requires DataOk(lang, d) && Lawful(lang) && AddOk(a)
    requires lang.parse(text) == Some(config) && fingerprint == lang.fingerprint(config)
    requires forall id :: id in d.records ==> !FoundIdentity(d, fingerprint, a.global, a.owner, id)
    requires AddNew(d, a, fingerprint, config, text, c).1.AddCreate?
    ensures NewOk(lang, AddNew(d, a, fingerprint, config, text, c).0, NewRecord(a, c.id, fingerprint, config, text))
  {
    var d' := AddNew(d, a, fingerprint, config, text, c).0;
    var next := NewRecord(a, c.id, fingerprint, config, text);
    forall other | other in d'.records
      ensures Apart(d'.forced, next, d'.records[other])
    {
      assert !FoundIdentity(d, fingerprint, a.global, a.owner, other);
      assert d.records[other].interface != next.interface;
      assert a.name.Some? && HasName(d.records[other], a.name.value, a.global, a.owner)
        ==> NameTaken(d, a.name.value, a.global, a.owner);
    }
    assert c.id !in d.records by {
      assert c.id in d.records ==> RecordOk(lang, d, c.id, d.records[c.id]);
    }
    assert RecordOk(lang, d'.(created := d'.created + {next.id}), next.id, next);
  }

  lemma AddNewOk(lang: Language, d: Shared, a: Add, fingerprint: string, config: Config, text: string, c: Choice)
    requires DataOk(lang, d) && Lawful(lang) && AddOk(a)
    requires lang.parse(text) == Some(config) && fingerprint == lang.fingerprint(config)
    requires forall id :: id in d.records ==> !FoundIdentity(d, fingerprint, a.global, a.owner, id)
    ensures SectionOk(lang, Locks(true, None), false, d, AddNew(d, a, fingerprint, config, text, c))
  {
    hide DataOk, Preserved, SectionOk, Within;
    var (d', p) := AddNew(d, a, fingerprint, config, text, c);
    History(lang, Locks(true, None), d, d');
    if p.AddCreate? {
      NewRecordOk(lang, d, a, fingerprint, config, text, c);
      AddPhaseOk(lang, false, d', p);
      Together(lang, Locks(true, None), false, d, d', p);
    } else {
      Finish(lang, Locks(true, None), false, d, d', p.reply);
    }
  }

  lemma AddSectionOk(lang: Language, d: Shared, a: Add, c: Choice)
    requires DataOk(lang, d) && Lawful(lang) && ThreadOk(lang, d, AddIndexed(a))
    ensures SectionOk(lang, Locks(true, None), false, d, AddSection(lang, d, a, c))
  {
    var text := Effective(lang, a.text, a.mtu);
    var parsed := lang.parse(text);
    if parsed.None? || d.unreadable != {} {
      FinishUnchanged(lang, Locks(true, None), false, d, Failed);
    } else {
      var fingerprint := lang.fingerprint(parsed.value);
      if FoundIdentity(d, fingerprint, a.global, a.owner, c.id) {
        assert RecordOk(lang, d, c.id, d.records[c.id]);
        AddExistingOk(lang, d, a, d.records[c.id]);
      } else if !exists id :: id in d.records && FoundIdentity(d, fingerprint, a.global, a.owner, id) {
        AddNewOk(lang, d, a, fingerprint, parsed.value, text, c);
      } else {
        Unchanged(lang, Locks(true, None), d);
        AddPhaseOk(lang, false, d, AddIndexed(a));
        Together(lang, Locks(true, None), false, d, d, AddIndexed(a));
      }
    }
  }

  lemma AddHaveConnOk(lang: Language, d: Shared, next: Record)
    requires DataOk(lang, d) && CopyOk(lang, d, next)
    ensures SectionOk(lang, Locks(true, Some(next.id)), false, d, (Save(d, next), Done(Id(next.id))))
  {
    SaveUpdate(lang, Locks(true, Some(next.id)), d, next);
    Finish(lang, Locks(true, Some(next.id)), false, d, Save(d, next), Id(next.id));
  }

  // ---- refresh ----------------------------------------------------------------------------------

  lemma RefreshedOk(lang: Language, d: Shared, id: ConnectionId, config: Config, text: string, source: Option<string>)
    requires DataOk(lang, d) && Lawful(lang) && id in d.records
    requires lang.parse(text) == Some(config) && lang.fingerprint(config) != d.records[id].fingerprint
    requires forall other ::
      other in d.records && other != id
      ==> !FoundIdentity(d, lang.fingerprint(config), d.records[id].global, d.records[id].owner, other)
    ensures RefreshOk(lang, d, Refreshed(lang, d.records[id], config, text, source))
  {
    var stored := d.records[id];
    var next := Refreshed(lang, stored, config, text, source);
    assert RecordOk(lang, d, id, stored);
    assert lang.validLinks(stored.links, stored.config);
    assert lang.validLinks(lang.prune(stored.links, config), config);
    assert RecordOk(lang, d, id, next);
    forall other | other in d.records && other != id
      ensures Apart(d.forced, next, d.records[other])
    {
      assert Apart(d.forced, stored, d.records[other]);
      assert !FoundIdentity(d, lang.fingerprint(config), stored.global, stored.owner, other);
    }
  }

  lemma RefreshAuthedOk(lang: Language, d: Shared, id: ConnectionId, text: string, source: Option<string>)
    requires DataOk(lang, d) && Lawful(lang) && RefreshSection(lang, d, id, text, source, Verified).1.RefreshAuthed?
    ensures var (d', p) := RefreshSection(lang, d, id, text, source, Verified);
      Preserved(lang, Locks(true, Some(id)), d, d') && ThreadOk(lang, d', p) && Within(p, Locks(true, Some(id)), false)
  {
    var (d', p) := RefreshSection(lang, d, id, text, source, Verified);
    var effective := Effective(lang, text, d.records[id].mtuOverride);
    assert RecordOk(lang, d, id, d.records[id]);
    History(lang, Locks(true, Some(id)), d, d');
    RefreshedOk(lang, d', id, lang.parse(effective).value, effective, source);
    RefreshPhaseOk(lang, false, d', p);
  }

  lemma RefreshSectionOk(lang: Language, d: Shared, id: ConnectionId, text: string, source: Option<string>, form: Form)
    requires DataOk(lang, d) && Lawful(lang)
    ensures SectionOk(lang, Locks(true, Some(id)), false, d, RefreshSection(lang, d, id, text, source, form))
  {
    hide DataOk, Preserved, SectionOk, Within;
    var l := Locks(true, Some(id));
    var (d', p) := RefreshSection(lang, d, id, text, source, form);
    if p.RefreshAuthed? {
      RefreshAuthedOk(lang, d, id, text, source);
      Together(lang, l, false, d, d', p);
    } else if p.RefreshTouch? {
      StoredRecord(lang, d, id);
      Unchanged(lang, l, d);
      TouchPhaseOk(lang, false, d, p.next);
      Together(lang, l, false, d, d, p);
    } else {
      FinishUnchanged(lang, l, false, d, p.reply);
    }
  }

  lemma RefreshTouchOk(lang: Language, d: Shared, next: Record)
    requires DataOk(lang, d) && TouchOk(d, next)
    ensures SectionOk(lang, Locks(false, Some(next.id)), false, d, (Save(d, next), Done(Unit)))
  {
    assert RecordOk(lang, d, next.id, d.records[next.id]);
    SaveMetadata(lang, Locks(false, Some(next.id)), d, next);
    Finish(lang, Locks(false, Some(next.id)), false, d, Save(d, next), Unit);
  }

  lemma RefreshActiveOk(lang: Language, d: Shared, next: Record, c: Choice)
    requires DataOk(lang, d) && RefreshOk(lang, d, next)
    ensures SectionOk(lang, Locks(true, Some(next.id)), false, d, RefreshActiveSection(d, next, c))
  {
    hide DataOk, Preserved, SectionOk, Within;
    var (d', p) := RefreshActiveSection(d, next, c);
    History(lang, Locks(true, Some(next.id)), d, d');
    RewriteKept(lang, d, d', next);
    if p.RefreshWrite? {
      RefreshPhaseOk(lang, false, d', p);
    } else {
      DownPhaseOk(lang, false, d', p);
    }
    Together(lang, Locks(true, Some(next.id)), false, d, d', p);
  }

  lemma RefreshWriteOk(lang: Language, d: Shared, next: Record, wasActive: Option<bool>)
    requires DataOk(lang, d) && RefreshOk(lang, d, next)
    requires next.id in d.statFaults || !Matching(d, next.id)
    ensures SectionOk(lang, Locks(true, Some(next.id)), false, d,
                      (Save(d, next), if wasActive.Some? then UpLoad(next.id, wasActive.value) else Done(Unit)))
  {
    hide DataOk, Preserved, SectionOk, Within;
    var l := Locks(true, Some(next.id));
    SaveUpdate(lang, l, d, next);
    if wasActive.Some? {
      UpLoadPhaseOk(lang, l, false, Save(d, next), next.id, wasActive.value);
      Together(lang, l, false, d, Save(d, next), UpLoad(next.id, wasActive.value));
    } else {
      Finish(lang, l, false, d, Save(d, next), Unit);
    }
  }

  // ---- remove, edits, intent -------------------------------------------------------------------

  lemma RemoveSectionOk(lang: Language, d: Shared, id: ConnectionId, form: Form, c: Choice)
    requires DataOk(lang, d)
    ensures SectionOk(lang, Locks(true, Some(id)), false, d, RemoveSection(d, id, form, c))
  {
    hide DataOk, Preserved, SectionOk, Within;
    var l := Locks(true, Some(id));
    var (d', p) := RemoveSection(d, id, form, c);
    if p.reply == Unit {
      Remove(lang, l, d, id);
      Finish(lang, l, false, d, d', Unit);
    } else {
      FinishUnchanged(lang, l, false, d, p.reply);
    }
  }

  lemma SetModeOk(lang: Language, d: Shared, id: ConnectionId, mode: StartMode)
    requires DataOk(lang, d) && id in d.records
    ensures var stored := d.records[id];
      var flag := if mode == Automatic then false else stored.userDisconnected;
      var next := stored.(mode := mode, userDisconnected := flag);
      Preserved(lang, Locks(false, Some(id)), d, Save(d, next))
  {
    var stored := d.records[id];
    StoredRecord(lang, d, id);
    SaveMetadata(lang, Locks(false, Some(id)), d,
      stored.(mode := mode, userDisconnected := if mode == Automatic then false else stored.userDisconnected));
  }

  lemma SetLinksOk(lang: Language, d: Shared, id: ConnectionId, links: seq<BypassLink>)
    requires DataOk(lang, d) && Lawful(lang) && id in d.records && lang.validate(links, d.records[id].config).Some?
    ensures var valid := lang.validate(links, d.records[id].config).value;
      Preserved(lang, Locks(false, Some(id)), d, Save(d, d.records[id].(links := valid)))
  {
    hide DataOk, Preserved;
    var stored := d.records[id];
    var valid := lang.validate(links, stored.config).value;
    StoredRecord(lang, d, id);
    assert lang.validLinks(valid, stored.config);
    SaveMetadata(lang, Locks(false, Some(id)), d, stored.(links := valid));
  }

  lemma EditKept(lang: Language, d: Shared, id: ConnectionId, edit: Edit, uid: nat)
    requires DataOk(lang, d) && Lawful(lang) && EditSection(lang, d, id, edit, uid).0 != d
    ensures Preserved(lang, Locks(false, Some(id)), d, EditSection(lang, d, id, edit, uid).0)
  {
    hide DataOk, Preserved, Lawful;
    StoredRecord(lang, d, id);
    match edit
    case SetMode(mode, form) => SetModeOk(lang, d, id, mode);
    case SetDns(enabled) => SaveMetadata(lang, Locks(false, Some(id)), d, d.records[id].(dnsDynamicStore := enabled));
    case SetLinks(links) => SetLinksOk(lang, d, id, links);
  }

  lemma EditSectionOk(lang: Language, d: Shared, id: ConnectionId, edit: Edit, uid: nat)
    requires DataOk(lang, d) && Lawful(lang)
    ensures SectionOk(lang, Locks(false, Some(id)), false, d, EditSection(lang, d, id, edit, uid))
  {
    hide DataOk, Preserved, SectionOk, Within;
    var (d', p) := EditSection(lang, d, id, edit, uid);
    if d' == d {
      Unchanged(lang, Locks(false, Some(id)), d);
    } else {
      EditKept(lang, d, id, edit, uid);
    }
    Finish(lang, Locks(false, Some(id)), false, d, d', p.reply);
  }

  lemma FlagOk(lang: Language, d: Shared, id: ConnectionId, flag: bool)
    requires DataOk(lang, d) && id in d.records
    ensures Preserved(lang, Locks(false, Some(id)), d, Save(d, d.records[id].(userDisconnected := flag)))
    ensures id in d.created
  {
    assert RecordOk(lang, d, id, d.records[id]);
    SaveMetadata(lang, Locks(false, Some(id)), d, d.records[id].(userDisconnected := flag));
  }

  lemma IntentSectionOk(lang: Language, d: Shared, id: ConnectionId, debug: bool, reason: Reason)
    requires DataOk(lang, d) && id in d.created
    ensures SectionOk(lang, Locks(false, Some(id)), false, d, IntentSection(d, id, debug, reason))
  {
    hide DataOk, Preserved, SectionOk, Within;
    var l := Locks(false, Some(id));
    var (d', p) := IntentSection(d, id, debug, reason);
    Unchanged(lang, l, d);
    if d' != d {
      FlagOk(lang, d, id, false);
    }
    if p.UpLoad? {
      UpLoadPhaseOk(lang, l, false, d', id, debug);
      Together(lang, l, false, d, d', p);
    } else {
      Finish(lang, l, false, d, d', p.reply);
    }
  }

  lemma MarkSectionOk(lang: Language, d: Shared, id: ConnectionId, byUser: bool)
    requires DataOk(lang, d) && id in d.created
    ensures SectionOk(lang, Locks(false, Some(id)), false, d, MarkSection(d, id, byUser))
  {
    hide DataOk, Preserved, SectionOk, Within;
    var l := Locks(false, Some(id));
    var (d', p) := MarkSection(d, id, byUser);
    Unchanged(lang, l, d);
    if d' != d {
      FlagOk(lang, d, id, true);
    }
    if p.DownLoad? {
      DownPhaseOk(lang, false, d', p);
      Together(lang, l, false, d, d', p);
    } else {
      Finish(lang, l, false, d, d', p.reply);
    }
  }

  // ---- connect ------------------------------------------------------------------------------------

  lemma UpLoadOk(lang: Language, d: Shared, id: ConnectionId, debug: bool)
    requires DataOk(lang, d)
    ensures SectionOk(lang, Locks(false, Some(id)), false, d, UpLoadSection(lang, d, id, debug))
  {
    hide DataOk, Preserved, SectionOk, Within;
    var l := Locks(false, Some(id));
    var p := UpLoadSection(lang, d, id, debug).1;
    if id in d.records {
      StoredRecord(lang, d, id);
    }
    Unchanged(lang, l, d);
    if p.Done? {
      Finish(lang, l, false, d, d, p.reply);
    } else {
      StoredPhaseOk(lang, false, d, p);
      Together(lang, l, false, d, d, p);
    }
  }

  lemma ClearDeadKept(lang: Language, l: Locks, d: Shared, interface: Interface, c: Choice)
    requires DataOk(lang, d)
    ensures Preserved(lang, l, d, ClearDead(d, interface, c))
  {
    Shrink(lang, l, d, ClearDead(d, interface, c));
  }

  lemma UpClearOk(lang: Language, d: Shared, stored: Record, debug: bool, c: Choice)
    requires DataOk(lang, d) && Here(d, stored)
    ensures SectionOk(lang, Locks(false, Some(stored.id)), true, d,
                      (ClearDead(d, stored.interface, c), UpCheck(stored, debug)))
  {
    hide DataOk, Preserved, SectionOk, Within;
    var d' := ClearDead(d, stored.interface, c);
    ClearDeadKept(lang, Locks(false, Some(stored.id)), d, stored.interface, c);
    StoredPhaseOk(lang, true, d', UpCheck(stored, debug));
    Together(lang, Locks(false, Some(stored.id)), true, d, d', UpCheck(stored, debug));
  }

  lemma UpCheckOk(lang: Language, d: Shared, stored: Record, debug: bool)
    requires DataOk(lang, d) && Here(d, stored)
    ensures SectionOk(lang, Locks(false, Some(stored.id)), false, d, UpCheckSection(d, stored, debug))
  {
    hide DataOk, Preserved, SectionOk, Within;
    var l := Locks(false, Some(stored.id));
    var p := UpCheckSection(d, stored, debug).1;
    StoredRecord(lang, d, stored.id);
    if Matching(d, stored.id) {
      MatchingMarker(lang, d, stored.id);
    }
    if p.Done? {
      FinishUnchanged(lang, l, false, d, p.reply);
    } else {
      Unchanged(lang, l, d);
      StoredPhaseOk(lang, false, d, p);
      Together(lang, l, false, d, d, p);
    }
  }

  lemma UpSpawnOk(lang: Language, d: Shared, stored: Record, debug: bool)
    requires DataOk(lang, d) && Here(d, stored)
    ensures SectionOk(lang, Locks(false, Some(stored.id)), true, d, UpSpawnSection(lang, d, stored, debug))
  {
    hide DataOk, Preserved, SectionOk, Within;
    var l := Locks(false, Some(stored.id));
    if HelperOn(d, stored.interface) {
      FinishUnchanged(lang, l, true, d, Failed);
    } else {
      SpawnKept(lang, l, d, stored);
      StoredPhaseOk(lang, true, Spawn(lang, d, stored), UpPost(stored, debug, |d.launches|));
      Together(lang, l, true, d, Spawn(lang, d, stored), UpPost(stored, debug, |d.launches|));
    }
  }

  lemma UpPostOk(lang: Language, d: Shared, stored: Record, debug: bool, n: nat, c: Choice)
    requires DataOk(lang, d) && ThreadOk(lang, d, UpPost(stored, debug, n))
    ensures SectionOk(lang, Locks(false, Some(stored.id)), false, d, UpPostSection(d, stored, debug, c))
  {
    hide DataOk, Preserved, SectionOk, Within;
    var l := Locks(false, Some(stored.id));
    var p := UpPostSection(d, stored, debug, c).1;
    Unchanged(lang, l, d);
    if p.Done? {
      Finish(lang, l, false, d, d, p.reply);
    } else {
      StoredPhaseOk(lang, false, d, p);
      Together(lang, l, false, d, d, p);
    }
  }

  lemma DownEffectKept(lang: Language, l: Locks, d: Shared, interface: Interface, c: Choice)
    requires DataOk(lang, d)
    ensures Preserved(lang, l, d, DownEffect(d, interface, c))
    ensures c.ok ==>
      interface !in DownEffect(d, interface, c).sockets && !HelperOn(DownEffect(d, interface, c), interface)
    ensures DownEffect(d, interface, c)
      == d.(sockets := DownEffect(d, interface, c).sockets, live := DownEffect(d, interface, c).live)
  {
    Shrink(lang, l, d, DownEffect(d, interface, c));
  }

  lemma UpRollbackOk(lang: Language, d: Shared, stored: Record, c: Choice)
    requires DataOk(lang, d)
    ensures SectionOk(lang, Locks(false, Some(stored.id)), true, d, (DownEffect(d, stored.interface, c), Done(Failed)))
  {
    DownEffectKept(lang, Locks(false, Some(stored.id)), d, stored.interface, c);
    Finish(lang, Locks(false, Some(stored.id)), true, d, DownEffect(d, stored.interface, c), Failed);
  }

  lemma UpSaveOk(lang: Language, d: Shared, stored: Record, m: Marker)
    requires DataOk(lang, d) && ThreadOk(lang, d, UpSave(stored, m))
    ensures SectionOk(lang, Locks(false, Some(stored.id)), false, d,
                      (d.(markers := d.markers[stored.id := m]), UpOk(stored)))
  {
    hide DataOk, Preserved, SectionOk, Within;
    StoredRecord(lang, d, stored.id);
    var d' := d.(markers := d.markers[stored.id := m]);
    PutMarker(lang, Locks(false, Some(stored.id)), d, stored.id, m);
    StoredPhaseOk(lang, false, d', UpOk(stored));
    Together(lang, Locks(false, Some(stored.id)), false, d, d', UpOk(stored));
  }

  // ---- disconnect -----------------------------------------------------------------------------------

  lemma RewriteKept(lang: Language, d: Shared, d': Shared, next: Record)
    requires RefreshOk(lang, d, next)
    requires d' == d.(markers := d'.markers, sockets := d'.sockets, live := d'.live, statFaults := d'.statFaults)
    ensures RefreshOk(lang, d', next)
  {
    forall other | other in d'.records && other != next.id
      ensures Apart(d'.forced, next, d'.records[other])
    {
      assert Apart(d.forced, next, d.records[other]);
    }
  }

  lemma DownRunOk(lang: Language, d: Shared, id: ConnectionId, k: Then, c: Choice)
    requires DataOk(lang, d) && ThreadOk(lang, d, DownRun(id, k))
    ensures SectionOk(lang, DownLocks(id, k), true, d, DownRunSection(d, id, k, c))
  {
    hide DataOk, Preserved, SectionOk, Within;
    var d' := DownEffect(d, InterfaceName(id), c);
    DownEffectKept(lang, DownLocks(id, k), d, InterfaceName(id), c);
    if !c.ok {
      Finish(lang, DownLocks(id, k), true, d, d', Failed);
    } else {
      if k.Rewrite? {
        RewriteKept(lang, d, d', k.next);
      }
      DownPhaseOk(lang, true, d', DownClear(id, k));
      Together(lang, DownLocks(id, k), true, d, d', DownClear(id, k));
    }
  }

  lemma DownClearOk(lang: Language, d: Shared, id: ConnectionId, k: Then)
    requires DataOk(lang, d) && ThreadOk(lang, d, DownClear(id, k))
    ensures SectionOk(lang, DownLocks(id, k), false, d, (d.(markers := d.markers - {id}), AfterDown(id, k)))
  {
    hide DataOk, Preserved, SectionOk, Within;
    var l, d' := DownLocks(id, k), d.(markers := d.markers - {id});
    ClearMarker(lang, l, d, id);
    StoredRecord(lang, d, id);
    match k
    case Finish => Finish(lang, l, false, d, d', Unit);
    case Reconnect(debug) =>
      UpLoadPhaseOk(lang, l, false, d', id, debug);
      Together(lang, l, false, d, d', UpLoad(id, debug));
    case Rewrite(next, debug) =>
      RewriteKept(lang, d, d', next);
      RefreshPhaseOk(lang, false, d', RefreshWrite(next, Some(debug)));
      Together(lang, l, false, d, d', RefreshWrite(next, Some(debug)));
  }

  lemma DownLoadOk(lang: Language, d: Shared, id: ConnectionId, k: Then)
    requires DataOk(lang, d) && ThreadOk(lang, d, DownLoad(id, k))
    ensures SectionOk(lang, DownLocks(id, k), false, d,
                      (d, if id in d.records && id !in d.unreadable then DownWantNetwork(id, k) else Done(Failed)))
  {
    hide DataOk, Preserved, SectionOk, Within;
    Unchanged(lang, DownLocks(id, k), d);
    if id in d.records && id !in d.unreadable {
      DownPhaseOk(lang, false, d, DownWantNetwork(id, k));
      Together(lang, DownLocks(id, k), false, d, d, DownWantNetwork(id, k));
    } else {
      Finish(lang, DownLocks(id, k), false, d, d, Failed);
    }
  }

  lemma SweepSectionOk(lang: Language, d: Shared, id: ConnectionId)
    requires DataOk(lang, d)
    ensures SectionOk(lang, Locks(false, Some(id)), false, d, SweepSection(d, id))
  {
    hide DataOk, Preserved, SectionOk, Within;
    var d' := SweepSection(d, id).0;
    Unchanged(lang, Locks(false, Some(id)), d);
    ClearMarker(lang, Locks(false, Some(id)), d, id);
    Finish(lang, Locks(false, Some(id)), false, d, d', Unit);
  }

  // ---- the remaining sections, and all of them -----------------------------------------------------

  lemma AddCreateOk(lang: Language, d: Shared, next: Record)
    requires DataOk(lang, d) && NewOk(lang, d, next)
    ensures SectionOk(lang, Locks(true, None), false, d,
                      (Save(d, next).(created := d.created + {next.id}), Done(Id(next.id))))
  {
    hide DataOk, Preserved, SectionOk, Within;
    Create(lang, Locks(true, None), d, next);
    Finish(lang, Locks(true, None), false, d, Created(d, next), Id(next.id));
  }

  lemma RemoveIndexedOk(lang: Language, d: Shared, id: ConnectionId, form: Form, uid: nat, c: Choice)
    requires DataOk(lang, d)
    ensures SectionOk(lang, Locks(true, None), false, d, Section(lang, d, RemoveIndexed(id, form, uid), c))
  {
    hide DataOk, Preserved;
    var p := Section(lang, d, RemoveIndexed(id, form, uid), c).1;
    Unchanged(lang, Locks(true, None), d);
    Together(lang, Locks(true, None), false, d, d, p);
  }

  lemma ReconnectSectionOk(lang: Language, d: Shared, id: ConnectionId, c: Choice)
    requires DataOk(lang, d) && id in d.created
    ensures SectionOk(lang, Locks(false, Some(id)), false, d, ReconnectSection(d, id, c))
  {
    hide DataOk, Preserved, SectionOk, Within;
    var p := ReconnectSection(d, id, c).1;
    Unchanged(lang, Locks(false, Some(id)), d);
    if p.DownLoad? {
      DownPhaseOk(lang, false, d, p);
      Together(lang, Locks(false, Some(id)), false, d, d, p);
    } else {
      Finish(lang, Locks(false, Some(id)), false, d, d, NotActive);
    }
  }

  lemma SweepRunOk(lang: Language, d: Shared, id: ConnectionId, c: Choice)
    requires DataOk(lang, d)
    ensures SectionOk(lang, Locks(false, None), true, d, (ClearDead(d, InterfaceName(id), c), SweepWantConn(id)))
  {
    hide DataOk, Preserved;
    ClearDeadKept(lang, Locks(false, None), d, InterfaceName(id), c);
    Together(lang, Locks(false, None), true, d, ClearDead(d, InterfaceName(id), c), SweepWantConn(id));
  }

  lemma IdleOk(lang: Language, d: Shared)
    requires DataOk(lang, d)
    ensures SectionOk(lang, Locks(false, None), false, d, (d, Idle))
  {
    hide DataOk, Preserved;
    Unchanged(lang, Locks(false, None), d);
    Together(lang, Locks(false, None), false, d, d, Idle);
  }

  lemma AddSectionsOk(lang: Language, d: Shared, p: Phase, c: Choice)
    requires DataOk(lang, d) && Lawful(lang) && ThreadOk(lang, d, p)
      && (p.AddIndexed? || p.AddHaveConn? || p.AddCreate?)
    ensures SectionOk(lang, LocksOf(p), HoldsNetwork(p), d, Section(lang, d, p, c))
  {
    hide DataOk, Lawful, SectionOk, AddSection, Save;
    match p
    case AddIndexed(a) => AddSectionOk(lang, d, a, c);
    case AddHaveConn(next, _) => AddHaveConnOk(lang, d, next);
    case AddCreate(next) => AddCreateOk(lang, d, next);
  }

  lemma RefreshSectionsOk(lang: Language, d: Shared, p: Phase, c: Choice)
    requires p.RefreshLocked? || p.RefreshTouch? || p.RefreshAuthed? || p.RefreshWrite?
    requires DataOk(lang, d) && Lawful(lang) && ThreadOk(lang, d, p)
    ensures SectionOk(lang, LocksOf(p), HoldsNetwork(p), d, Section(lang, d, p, c))
  {
    hide DataOk, Lawful, SectionOk, RefreshSection, RefreshActiveSection, Save;
    match p
    case RefreshLocked(id, text, source, form, _) => RefreshSectionOk(lang, d, id, text, source, form);
    case RefreshTouch(next) => RefreshTouchOk(lang, d, next);
    case RefreshAuthed(next) => RefreshActiveOk(lang, d, next, c);
    case RefreshWrite(next, wasActive) => RefreshWriteOk(lang, d, next, wasActive);
  }

  lemma ConnectChecksOk(lang: Language, d: Shared, p: Phase, c: Choice)
    requires p.ConnectIntent? || p.UpLoad? || p.UpClear? || p.UpCheck?
    requires DataOk(lang, d) && ThreadOk(lang, d, p)
    ensures SectionOk(lang, LocksOf(p), HoldsNetwork(p), d, Section(lang, d, p, c))
  {
    hide DataOk, AddPart, RewritePart, SocketPart, SectionOk, IntentSection, UpLoadSection, UpCheckSection, ClearDead;
    match p
    case ConnectIntent(id, debug, reason, _) => IntentSectionOk(lang, d, id, debug, reason);
    case UpLoad(id, debug) => UpLoadOk(lang, d, id, debug);
    case UpClear(stored, debug) => UpClearOk(lang, d, stored, debug, c);
    case UpCheck(stored, debug) => UpCheckOk(lang, d, stored, debug);
  }

  lemma ConnectLaunchOk(lang: Language, d: Shared, p: Phase, c: Choice)
    requires p.UpSpawn? || p.UpPost? || p.UpRollback? || p.UpSave? || p.UpOk?
    requires DataOk(lang, d) && ThreadOk(lang, d, p)
    ensures SectionOk(lang, LocksOf(p), HoldsNetwork(p), d, Section(lang, d, p, c))
  {
    hide DataOk, AddPart, RewritePart, SocketPart, SectionOk, UpSpawnSection, UpPostSection, DownEffect, AccessPart,
      Here;
    match p
    case UpSpawn(stored, debug) => UpSpawnOk(lang, d, stored, debug);
    case UpPost(stored, debug, n) => UpPostOk(lang, d, stored, debug, n, c);
    case UpRollback(stored) => UpRollbackOk(lang, d, stored, c);
    case UpSave(stored, m) => UpSaveOk(lang, d, stored, m);
    case UpOk(stored) => FinishUnchanged(lang, LocksOf(p), false, d, Unit);
  }

  lemma DisconnectSectionsOk(lang: Language, d: Shared, p: Phase, c: Choice)
    requires p.DisconnectMark? || p.DownLoad? || p.DownRun? || p.DownClear? || p.ReconnectLocked?
    requires DataOk(lang, d) && ThreadOk(lang, d, p)
    ensures SectionOk(lang, LocksOf(p), HoldsNetwork(p), d, Section(lang, d, p, c))
  {
    hide DataOk, AddPart, RewritePart, SocketPart, SectionOk, MarkSection, DownRunSection, AfterDown, ReconnectSection;
    if p.DisconnectMark? {
      MarkSectionOk(lang, d, p.id, p.byUser);
    } else if p.ReconnectLocked? {
      ReconnectSectionOk(lang, d, p.id, c);
    } else {
      DownSectionsOk(lang, d, p, c);
    }
  }

  lemma DownSectionsOk(lang: Language, d: Shared, p: Phase, c: Choice)
    requires p.DownLoad? || p.DownRun? || p.DownClear?
    requires DataOk(lang, d) && ThreadOk(lang, d, p)
    ensures SectionOk(lang, LocksOf(p), HoldsNetwork(p), d, Section(lang, d, p, c))
  {
    hide DataOk, AddPart, RewritePart, SocketPart, SectionOk, DownRunSection, AfterDown;
    match p
    case DownLoad(id, k) => DownLoadOk(lang, d, id, k);
    case DownRun(id, k) => DownRunOk(lang, d, id, k, c);
    case DownClear(id, k) => DownClearOk(lang, d, id, k);
  }

  lemma OtherSectionsOk(lang: Language, d: Shared, p: Phase, c: Choice)
    requires p.Done? || p.RemoveIndexed? || p.RemoveLocked? || p.EditLocked? || p.SweepRun? || p.SweepLocked?
    requires DataOk(lang, d) && Lawful(lang)
    ensures SectionOk(lang, LocksOf(p), HoldsNetwork(p), d, Section(lang, d, p, c))
  {
    hide DataOk, Lawful, SectionOk, RemoveSection, EditSection, SweepSection, ClearDead;
    match p
    case Done(_) => IdleOk(lang, d);
    case RemoveIndexed(id, form, uid) => RemoveIndexedOk(lang, d, id, form, uid, c);
    case RemoveLocked(id, form) => RemoveSectionOk(lang, d, id, form, c);
    case EditLocked(id, edit, uid) => EditSectionOk(lang, d, id, edit, uid);
    case SweepRun(id) => SweepRunOk(lang, d, id, c);
    case SweepLocked(id) => SweepSectionOk(lang, d, id);
  }

  /**
    Whatever section a thread runs, it keeps the invariant, guarantees what its locks promise, and takes no new
    lock.
   */
  lemma EverySectionOk(lang: Language, d: Shared, p: Phase, c: Choice)
    requires DataOk(lang, d) && Lawful(lang) && ThreadOk(lang, d, p) && Runnable(p)
    ensures SectionOk(lang, LocksOf(p), HoldsNetwork(p), d, Section(lang, d, p, c))
  {
    hide DataOk, Lawful, ThreadOk, SectionOk, LocksOf, Section;
    if p.AddIndexed? || p.AddHaveConn? || p.AddCreate? {
      AddSectionsOk(lang, d, p, c);
    } else if p.RefreshLocked? || p.RefreshTouch? || p.RefreshAuthed? || p.RefreshWrite? {
      RefreshSectionsOk(lang, d, p, c);
    } else if p.DisconnectMark? || p.DownLoad? || p.DownRun? || p.DownClear? || p.ReconnectLocked? {
      DisconnectSectionsOk(lang, d, p, c);
    } else if p.Done? || p.RemoveIndexed? || p.RemoveLocked? || p.EditLocked? || p.SweepRun? || p.SweepLocked? {
      OtherSectionsOk(lang, d, p, c);
    } else if p.ConnectIntent? || p.UpLoad? || p.UpClear? || p.UpCheck? {
      ConnectChecksOk(lang, d, p, c);
    } else {
      ConnectLaunchOk(lang, d, p, c);
    }
  }
}
