/** `resolve_id` of the command line (src/connection_cli.rs) over the listing the daemon answers. */
module Cli {
  import opened Wrappers
  import opened Records
  import opened Daemon
  import opened DaemonInvariant
  import opened DaemonSafety
  import opened DaemonGuarantees

  datatype Scope = Mine | Global | All

  predicate InScope(r: Record, scope: Scope, uid: nat) {
    match scope
    case Mine => r.owner == Some(uid)
    case Global => r.global
    case All => true
  }

  function Filter(records: seq<Record>, keep: Record -> bool): (r: seq<Record>)
    ensures forall x :: x in r <==> x in records && keep(x)
  {
    if records == [] then [] else
    var init, last := records[..|records| - 1], records[|records| - 1];
    assert records == init + [last];
    Filter(init, keep) + (if keep(last) then [last] else [])
  }

  /** The listing of a scope, narrowed to one name. */
  function ByName(listing: seq<Record>, scope: Scope, uid: nat, name: string): seq<Record> {
    Filter(listing, (r: Record) => InScope(r, scope, uid) && r.name == Some(name))
  }

  datatype Resolved = One(id: ConnectionId) | NoSuch | Ambiguous(matches: nat)

  function Verdict(matches: seq<Record>): Resolved {
    if |matches| == 0 then NoSuch else if |matches| == 1 then One(matches[0].id) else Ambiguous(|matches|)
  }

  /** What root falls back to before the global connections. */
  function RootMatches(listing: seq<Record>, sudo: Option<nat>, name: string): seq<Record> {
    var all := ByName(listing, All, 0, name);
    var invoking := if sudo.Some? then Filter(all, (r: Record) => r.owner == Some(sudo.value)) else [];
    if invoking != [] then invoking else all
  }

  /** The connections a name stands for: the caller's own first, then what root may see, then the global ones. */
  function Matches(listing: seq<Record>, uid: nat, sudo: Option<nat>, name: string): seq<Record> {
    var mine := ByName(listing, Mine, uid, name);
    var wider := if mine == [] && uid == 0 then RootMatches(listing, sudo, name) else mine;
    if wider == [] then ByName(listing, Global, uid, name) else wider
  }

  /** `resolve_id`. */
  method ResolveId(listing: seq<Record>, uid: nat, sudo: Option<nat>, text: string) returns (r: Resolved)
    ensures r == if ParseId(text).Some? then One(ParseId(text).value) else Verdict(Matches(listing, uid, sudo, text))
  {
    var id := ParseId(text);
    if id.Some? {
      return One(id.value);
    }
    var matches := ByName(listing, Mine, uid, text);
    if matches == [] && uid == 0 {
      var all := ByName(listing, All, uid, text);
      if sudo.Some? {
        matches := Filter(all, (r: Record) => r.owner == Some(sudo.value));
      }
      if matches == [] {
        matches := all;
      }
    }
    if matches == [] {
      matches := ByName(listing, Global, uid, text);
    }
    r := Verdict(matches);
  }

  ghost predicate OnceEach(records: seq<Record>) {
    forall i, j :: 0 <= i < j < |records| ==> records[i] != records[j]
  }

  // ---- what a listing is --------------------------------------------------------------------------

  /** The lenient listing of a store: every readable record once, in some order. */
  ghost predicate ListingOf(listing: seq<Record>, d: Shared) {
    && (forall r :: r in listing <==> r.id in d.records && d.records[r.id] == r && r.id !in d.unreadable)
    && OnceEach(listing)
  }

  lemma {:induction false} FilterOnce(records: seq<Record>, keep: Record -> bool)
    requires OnceEach(records)
    ensures OnceEach(Filter(records, keep))
  {
    if records != [] {
      var init, last := records[..|records| - 1], records[|records| - 1];
      FilterOnce(init, keep);
      assert forall i :: 0 <= i < |init| ==> records[i] != last;
      assert last !in Filter(init, keep);
    }
  }

  lemma ByNameOnce(listing: seq<Record>, scope: Scope, uid: nat, name: string)
    requires OnceEach(listing)
    ensures OnceEach(ByName(listing, scope, uid, name))
  {
    FilterOnce(listing, (r: Record) => InScope(r, scope, uid) && r.name == Some(name));
  }

  lemma {:induction false} FilterNone(records: seq<Record>, keep: Record -> bool)
    requires forall x :: x in records ==> !keep(x)
    ensures Filter(records, keep) == []
  {
    if records != [] {
      FilterNone(records[..|records| - 1], keep);
    }
  }

  /** If exactly one element satisfies the filter, exactly that one comes out. */
  lemma {:induction false} FilterUnique(records: seq<Record>, keep: Record -> bool, r: Record)
    requires OnceEach(records)
    requires r in records && keep(r)
    requires forall x :: x in records && keep(x) ==> x == r
    ensures Filter(records, keep) == [r]
  {
    var init, last := records[..|records| - 1], records[|records| - 1];
    assert records == init + [last];
    if last == r {
      assert forall i :: 0 <= i < |init| ==> records[i] != last;
      FilterNone(init, keep);
    } else {
      FilterUnique(init, keep, r);
    }
  }

  lemma NoneByName(listing: seq<Record>, scope: Scope, uid: nat, name: string)
    requires forall x :: x in listing ==> !(InScope(x, scope, uid) && x.name == Some(name))
    ensures ByName(listing, scope, uid, name) == []
  {
    FilterNone(listing, (r: Record) => InScope(r, scope, uid) && r.name == Some(name));
  }

  /** Names are unique per owner in every store reached without a forced name. */
  lemma SameNameSameRecord(lang: Language, s: State, a: Record, b: Record)
    requires Lawful(lang) && Reachable(lang, s) && !s.shared.forced
    requires a.id in s.shared.records && s.shared.records[a.id] == a && b.id in s.shared.records
      && s.shared.records[b.id] == b
    requires a.name.Some? && a.name == b.name && a.global == b.global && a.owner == b.owner
    ensures a == b
  {
    hide Lawful, Reachable;
    if a.id != b.id {
      NamesDistinct(lang, s, a.id, b.id);
    }
  }

  lemma ScopesAreApart(lang: Language, s: State, id: ConnectionId)
    requires Lawful(lang) && Reachable(lang, s) && id in s.shared.records
    ensures var r := s.shared.records[id];
      r.id == id && (r.global <==> r.owner.None?) && (r.name.Some? ==> ParseId(r.name.value).None?)
  {
    hide Lawful, Reachable, Inv, ParseId;
    ReachableInv(lang, s);
    RecordCreated(lang, s, id);
  }

  lemma OwnMatches(lang: Language, s: State, listing: seq<Record>, uid: nat, r: Record)
    requires Lawful(lang) && Reachable(lang, s) && !s.shared.forced && ListingOf(listing, s.shared)
    requires r in listing && r.owner == Some(uid) && r.name.Some?
    ensures ByName(listing, Mine, uid, r.name.value) == [r]
  {
    hide Lawful, Reachable;
    var keep := (x: Record) => InScope(x, Mine, uid) && x.name == Some(r.name.value);
    forall x | x in listing && keep(x)
      ensures x == r
    {
      ScopesAreApart(lang, s, x.id);
      ScopesAreApart(lang, s, r.id);
      SameNameSameRecord(lang, s, x, r);
    }
    FilterUnique(listing, keep, r);
  }

  lemma GlobalMatches(lang: Language, s: State, listing: seq<Record>, uid: nat, r: Record)
    requires Lawful(lang) && Reachable(lang, s) && !s.shared.forced && ListingOf(listing, s.shared)
    requires r in listing && r.global && r.name.Some?
    ensures ByName(listing, Global, uid, r.name.value) == [r]
  {
    hide Lawful, Reachable;
    var keep := (x: Record) => InScope(x, Global, uid) && x.name == Some(r.name.value);
    forall x | x in listing && keep(x)
      ensures x == r
    {
      ScopesAreApart(lang, s, x.id);
      ScopesAreApart(lang, s, r.id);
      SameNameSameRecord(lang, s, x, r);
    }
    FilterUnique(listing, keep, r);
  }

  // ---- theorems --------------------------------------------------------------------------------------

  /** Without forced names, no text is ambiguous for a caller who is not root. */
  lemma NeverAmbiguous(lang: Language, s: State, listing: seq<Record>, uid: nat, sudo: Option<nat>, text: string)
    requires Lawful(lang) && Reachable(lang, s) && !s.shared.forced && ListingOf(listing, s.shared) && uid != 0
    ensures !Verdict(Matches(listing, uid, sudo, text)).Ambiguous?
  {
    hide Lawful, Reachable;
    var matches := Matches(listing, uid, sudo, text);
    if matches != [] {
      var r := matches[0];
      assert r in matches;
      if r in ByName(listing, Mine, uid, text) {
        OwnMatches(lang, s, listing, uid, r);
      } else {
        GlobalMatches(lang, s, listing, uid, r);
      }
    }
  }

  /** The caller's own named connection resolves to itself, and its name never parses as an id. */
  lemma OwnNameResolves(lang: Language, s: State, listing: seq<Record>, uid: nat, sudo: Option<nat>, r: Record)
    requires Lawful(lang) && Reachable(lang, s) && !s.shared.forced && ListingOf(listing, s.shared)
    requires r in listing && r.owner == Some(uid) && r.name.Some?
    ensures ParseId(r.name.value).None? && Verdict(Matches(listing, uid, sudo, r.name.value)) == One(r.id)
  {
    hide Lawful, Reachable, ParseId, ByName, RootMatches;
    ScopesAreApart(lang, s, r.id);
    OwnMatches(lang, s, listing, uid, r);
  }

  /** For a caller who is not root a global name resolves to itself exactly if no own connection has that name. */
  lemma GlobalNameResolves(lang: Language, s: State, listing: seq<Record>, uid: nat, sudo: Option<nat>, r: Record)
    requires Lawful(lang) && Reachable(lang, s) && !s.shared.forced && ListingOf(listing, s.shared) && uid != 0
    requires r in listing && r.global && r.name.Some?
    ensures Verdict(Matches(listing, uid, sudo, r.name.value)) == One(r.id)
       <==> forall x :: x in listing ==> !(x.owner == Some(uid) && x.name == r.name)
  {
    hide Lawful, Reachable, ParseId;
    var name := r.name.value;
    GlobalMatches(lang, s, listing, uid, r);
    ScopesAreApart(lang, s, r.id);
    if x :| x in listing && x.owner == Some(uid) && x.name == r.name {
      OwnMatches(lang, s, listing, uid, x);
      ScopesAreApart(lang, s, x.id);
      assert x.id != r.id;
    } else {
      NoneByName(listing, Mine, uid, name);
    }
  }

  /** Under sudo, a name of the invoking user's own connection resolves to it unless root has one of that name. */
  lemma SudoNameResolves(lang: Language, s: State, listing: seq<Record>, user: nat, r: Record)
    requires Lawful(lang) && Reachable(lang, s) && !s.shared.forced && ListingOf(listing, s.shared)
    requires r in listing && r.owner == Some(user) && r.name.Some?
    requires forall x :: x in listing ==> !(x.owner == Some(0) && x.name == r.name)
    ensures Verdict(Matches(listing, 0, Some(user), r.name.value)) == One(r.id)
  {
    hide Lawful, Reachable, ParseId;
    var name := r.name.value;
    NoneByName(listing, Mine, 0, name);
    var all := ByName(listing, All, 0, name);
    ByNameOnce(listing, All, 0, name);
    forall x | x in all && x.owner == Some(user)
      ensures x == r
    {
      ScopesAreApart(lang, s, x.id);
      ScopesAreApart(lang, s, r.id);
      SameNameSameRecord(lang, s, x, r);
    }
    FilterUnique(all, (x: Record) => x.owner == Some(user), r);
  }

  /**
    Root without an own connection of the name, and not acting for a user who has
    one, gets the connection of that name if there is one, whoever owns it; more
    than one is ambiguous, and then all of them are counted.
   */
  lemma RootNameResolves(listing: seq<Record>, sudo: Option<nat>, name: string)
    requires OnceEach(listing)
    requires forall x :: x in listing && x.name == Some(name) ==> x.owner != Some(0) && (sudo.Some? ==> x.owner != sudo)
    ensures var verdict := Verdict(Matches(listing, 0, sudo, name));
      && (verdict.NoSuch? <==> forall x :: x in listing ==> x.name != Some(name))
      && (forall r :: r in listing && r.name == Some(name) ==>
            && (verdict.One? <==> forall x :: x in listing && x.name == Some(name) ==> x == r)
            && (verdict.One? ==> verdict.id == r.id))
  {
    hide Matches, OnceEach, ByName, Verdict;
    RootMatchesAll(listing, sudo, name);
    var all := ByName(listing, All, 0, name);
    AllByName(listing, name);
    NoVerdict(all);
    forall r | r in listing && r.name == Some(name)
      ensures Verdict(all).One? <==> forall x :: x in listing && x.name == Some(name) ==> x == r
      ensures Verdict(all).One? ==> Verdict(all).id == r.id
    {
      OnlyOneMatch(listing, all, name, r);
      OneVerdict(all);
    }
  }

  lemma NoVerdict(matches: seq<Record>)
    ensures Verdict(matches).NoSuch? <==> forall x :: x !in matches
  {
    if matches != [] {
      assert matches[0] in matches;
    }
  }

  lemma OneVerdict(matches: seq<Record>)
    ensures Verdict(matches).One? <==> |matches| == 1
    ensures |matches| == 1 ==> Verdict(matches) == One(matches[0].id)
  {
  }

  lemma AllByName(listing: seq<Record>, name: string)
    ensures forall x :: x in ByName(listing, All, 0, name) <==> x in listing && x.name == Some(name)
  {
  }

  lemma RootMatchesAll(listing: seq<Record>, sudo: Option<nat>, name: string)
    requires forall x :: x in listing && x.name == Some(name) ==> x.owner != Some(0) && (sudo.Some? ==> x.owner != sudo)
    ensures Matches(listing, 0, sudo, name) == ByName(listing, All, 0, name)
  {
    hide Filter;
    NoneByName(listing, Mine, 0, name);
    var all := ByName(listing, All, 0, name);
    if sudo.Some? {
      FilterNone(all, (r: Record) => r.owner == Some(sudo.value));
    }
    NoneOrAll(listing, name);
  }

  lemma OnlyOneMatch(listing: seq<Record>, all: seq<Record>, name: string, r: Record)
    requires OnceEach(listing) && all == ByName(listing, All, 0, name) && r in listing && r.name == Some(name)
    ensures r in all
    ensures |all| == 1 <==> forall x :: x in listing && x.name == Some(name) ==> x == r
    ensures |all| == 1 ==> all[0] == r
  {
    if forall x :: x in listing && x.name == Some(name) ==> x == r {
      FilterUnique(listing, (x: Record) => InScope(x, All, 0) && x.name == Some(name), r);
    }
    if |all| == 1 {
      assert forall x :: x in all ==> x == all[0];
    }
  }

  /** Without any match there is none among the global connections either. */
  lemma NoneOrAll(listing: seq<Record>, name: string)
    ensures ByName(listing, All, 0, name) == [] ==> ByName(listing, Global, 0, name) == []
  {
    var all, global := ByName(listing, All, 0, name), ByName(listing, Global, 0, name);
    if global != [] {
      assert global[0] in global;
      assert global[0] in all;
    }
  }
}
