/**
  The records, active markers and helper launches the privileged daemon keeps
  (src/privileged/connection_store.rs), and the few functions of a
  configuration language the store depends on.
 */
module Records {
  import opened Wrappers
  import opened Cidr
  import opened BypassLinks

  /** A UUID: the eight hex digits that name the interface, and the rest. */
  datatype ConnectionId = ConnectionId(head: nat, tail: nat)

  type Interface = nat

  /** `wg-` and the first eight hex digits of the id; distinct ids may collide. */
  function InterfaceName(id: ConnectionId): Interface {
    id.head
  }

  predicate IsHex(c: char) {
    '0' <= c <= '9' || 'a' <= c <= 'f' || 'A' <= c <= 'F'
  }

  function HexDigit(c: char): nat
    requires IsHex(c)
  {
    if c <= '9' then (c - '0') as nat else if c <= 'F' then (c - 'A') as nat + 10 else (c - 'a') as nat + 10
  }

  predicate AllHex(s: string) {
    forall i :: 0 <= i < |s| ==> IsHex(s[i])
  }

  function HexNumber(s: string): nat
    requires AllHex(s)
  {
    if s == [] then 0 else 16 * HexNumber(s[..|s| - 1]) + HexDigit(s[|s| - 1])
  }

  /** A digit stands for its place among the sixteen, in either case. */
  lemma HexDigitExactly(c: char)
    requires IsHex(c)
    ensures HexDigit(c) < 16 && ("0123456789abcdef"[HexDigit(c)] == c || "0123456789ABCDEF"[HexDigit(c)] == c)
  {
  }

  /** Texts of the same length are the same number exactly if they have the same digits. */
  lemma {:induction false} HexNumberExactly(a: string, b: string)
    requires AllHex(a) && AllHex(b) && |a| == |b|
    ensures HexNumber(a) == HexNumber(b) <==> forall i :: 0 <= i < |a| ==> HexDigit(a[i]) == HexDigit(b[i])
  {
    if a != [] {
      var n := |a| - 1;
      HexNumberExactly(a[..n], b[..n]);
      assert HexDigit(a[n]) < 16 && HexDigit(b[n]) < 16;
    }
  }

  function ParseSimple(s: string): Option<ConnectionId> {
    if |s| == 32 && AllHex(s) then Some(ConnectionId(HexNumber(s[..8]), HexNumber(s[8..]))) else None
  }

  function ParseHyphenated(s: string): Option<ConnectionId> {
    if |s| == 36 && s[8] == '-' && s[13] == '-' && s[18] == '-' && s[23] == '-'
    then ParseSimple(s[..8] + s[9..13] + s[14..18] + s[19..23] + s[24..])
    else None
  }

  /** `ConnectionId::from_str`: the simple, hyphenated, braced and URN forms of a UUID. */
  function ParseId(s: string): Option<ConnectionId> {
    if |s| == 38 && s[0] == '{' && s[37] == '}' then ParseHyphenated(s[1..37])
    else if |s| == 45 && s[..9] == "urn:uuid:" then ParseHyphenated(s[9..])
    else if ParseSimple(s).Some? then ParseSimple(s)
    else ParseHyphenated(s)
  }

  /** The hyphenated form of 32 digits. */
  function Hyphenated(h: string): string
    requires |h| == 32
  {
    h[..8] + "-" + h[8..12] + "-" + h[12..16] + "-" + h[16..20] + "-" + h[20..]
  }

  /** The four ways to write an id of these 32 digits. */
  predicate WritesId(s: string, h: string) {
    && |h| == 32
    && (s == h || s == Hyphenated(h) || s == "{" + Hyphenated(h) + "}" || s == "urn:uuid:" + Hyphenated(h))
  }

  lemma HyphenatedParses(h: string)
    requires |h| == 32
    ensures ParseHyphenated(Hyphenated(h)) == ParseSimple(h)
  {
    var s := Hyphenated(h);
    assert s[..8] == h[..8] && s[9..13] == h[8..12] && s[14..18] == h[12..16] && s[19..23] == h[16..20];
    assert s[24..] == h[20..];
    assert s[..8] + s[9..13] + s[14..18] + s[19..23] + s[24..] == h;
  }

  /** The digits of a hyphenated text. */
  lemma HyphenatedFrom(s: string) returns (h: string)
    requires ParseHyphenated(s).Some?
    ensures |h| == 32 && AllHex(h) && s == Hyphenated(h)
  {
    h := s[..8] + s[9..13] + s[14..18] + s[19..23] + s[24..];
    assert h[..8] == s[..8] && h[8..12] == s[9..13] && h[12..16] == s[14..18] && h[16..20] == s[19..23];
    assert h[20..] == s[24..];
  }

  /** A text is an id exactly in one of the four forms, and every form of the same digits is the same id. */
  lemma ParseIdExactly(s: string)
    ensures ParseId(s).Some? <==> exists h :: WritesId(s, h) && AllHex(h)
    ensures forall h :: WritesId(s, h) && AllHex(h) ==>
      ParseId(s) == Some(ConnectionId(HexNumber(h[..8]), HexNumber(h[8..])))
  {
    hide HexNumber;
    forall h | WritesId(s, h) && AllHex(h)
      ensures ParseId(s) == Some(ConnectionId(HexNumber(h[..8]), HexNumber(h[8..])))
    {
      FormParses(s, h);
    }
    if ParseId(s).Some? {
      ParsedForm(s);
    }
  }

  lemma FormParses(s: string, h: string)
    requires WritesId(s, h) && AllHex(h)
    ensures ParseId(s) == ParseSimple(h)
  {
    hide HexNumber;
    HyphenatedParses(h);
    var hyphens := Hyphenated(h);
    assert s == "{" + hyphens + "}" ==> s[1..37] == hyphens;
    assert s == "urn:uuid:" + hyphens ==> s[9..] == hyphens && s[..9] == "urn:uuid:";
  }

  lemma ParsedForm(s: string)
    requires ParseId(s).Some?
    ensures exists h :: WritesId(s, h) && AllHex(h)
  {
    hide HexNumber;
    if |s| == 32 {
      assert WritesId(s, s);
    } else if |s| == 38 && s[0] == '{' && s[37] == '}' {
      var h := HyphenatedFrom(s[1..37]);
      assert s == "{" + s[1..37] + "}";
      assert WritesId(s, h);
    } else if |s| == 45 {
      var h := HyphenatedFrom(s[9..]);
      assert s == s[..9] + s[9..];
      assert WritesId(s, h);
    } else {
      var h := HyphenatedFrom(s);
      assert WritesId(s, h);
    }
  }

  /** Two texts are the same id exactly if they have the same digits, in any form and case. */
  lemma SameIdExactly(s: string, h: string, s': string, h': string)
    requires WritesId(s, h) && AllHex(h) && WritesId(s', h') && AllHex(h')
    ensures ParseId(s) == ParseId(s') <==> forall i :: 0 <= i < 32 ==> HexDigit(h[i]) == HexDigit(h'[i])
    ensures forall i :: 0 <= i < 32 ==>
      "0123456789abcdef"[HexDigit(h[i])] == h[i] || "0123456789ABCDEF"[HexDigit(h[i])] == h[i]
  {
    hide ParseId, HexDigit, WritesId, IsHex;
    ParseIdExactly(s);
    ParseIdExactly(s');
    assert |h| == 32 && |h'| == 32 by { Digits32(s, h); Digits32(s', h'); }
    HexNumberExactly(h[..8], h'[..8]);
    HexNumberExactly(h[8..], h'[8..]);
    forall i | 0 <= i < 32
      ensures HexDigit(h[i]) < 16
      ensures "0123456789abcdef"[HexDigit(h[i])] == h[i] || "0123456789ABCDEF"[HexDigit(h[i])] == h[i]
      ensures i >= 8 ==> h[i] == h[8..][i - 8] && h'[i] == h'[8..][i - 8]
      ensures i < 8 ==> h[i] == h[..8][i] && h'[i] == h'[..8][i]
    {
      HexDigitExactly(h[i]);
    }
  }

  lemma Digits32(s: string, h: string)
    requires WritesId(s, h)
    ensures |h| == 32
  {
  }

  const MAX_NAME: nat := 64

  /** `validate_name_charset`: a name no id can shadow. */
  predicate ValidName(name: string) {
    && name != [] && |name| <= MAX_NAME
    && (forall i :: 0 <= i < |name| ==> 'a' <= name[i] <= 'z' || '0' <= name[i] <= '9' || name[i] in "-_.")
    && ParseId(name).None?
  }

  datatype StartMode = Manual | Automatic

  /** A parsed configuration: the AllowedIPs of each peer, and everything else. */
  datatype Config = Config(peers: seq<seq<Net>>, rest: string)

  function Concat(lists: seq<seq<Net>>): (r: seq<Net>)
    ensures forall x :: x in r <==> exists i :: 0 <= i < |lists| && x in lists[i]
  {
    if lists == [] then [] else
    assert lists == [lists[0]] + lists[1..];
    lists[0] + Concat(lists[1..])
  }

  /** `StoredConnection`, without its two timestamps. */
  datatype Record = Record(
    id: ConnectionId,
    fingerprint: string,
    global: bool,
    owner: Option<nat>,
    mode: StartMode,
    name: Option<string>,
    config: Config,
    rawConf: string,
    interface: Interface,
    userDisconnected: bool,
    sourcePath: Option<string>,
    mtuOverride: Option<nat>,
    dnsDynamicStore: bool,
    links: seq<BypassLink>)

  /**
    What the store uses of a configuration language. The store theorems hold for
    every lawful language; `StoreLanguage` below is the one the daemon has, for
    an arbitrary parser, fingerprint and MTU rewrite.
   */
  datatype Language = Language(
    parse: string -> Option<Config>,
    fingerprint: Config -> string,
    withMtu: (string, nat) -> string,
    validLinks: (seq<BypassLink>, Config) -> bool,
    validate: (seq<BypassLink>, Config) -> Option<seq<BypassLink>>,
    prune: (seq<BypassLink>, Config) -> seq<BypassLink>,
    admitted: (seq<BypassLink>, Config) -> seq<BypassLink>)

  /** What the store needs of validation and pruning. */
  ghost predicate Lawful(lang: Language) {
    && (forall config :: lang.validLinks([], config))
    && (forall links, config ::
         lang.validate(links, config).Some? ==> lang.validLinks(lang.validate(links, config).value, config))
    && (forall links, before, after {:trigger lang.validLinks(links, before), lang.prune(links, after)} ::
          lang.validLinks(links, before) ==> lang.validLinks(lang.prune(links, after), after))
    && (forall links, config :: lang.validLinks(links, config) ==> lang.admitted(links, config) == links)
  }

  function StoreLanguage(
      parse: string -> Option<Config>, fingerprint: Config -> string, withMtu: (string, nat) -> string): Language
  {
    Language(
      parse, fingerprint, withMtu,
      (links: seq<BypassLink>, config: Config) => ValidateStrict(links, Concat(config.peers)) == Accepted(links),
      (links: seq<BypassLink>, config: Config) =>
        match ValidateStrict(links, Concat(config.peers)) case Accepted(valid) => Some(valid) case Rejected(_) => None,
      (links: seq<BypassLink>, config: Config) => Prune(links, Concat(config.peers)).links,
      (links: seq<BypassLink>, config: Config) => Report(CheckLinks(links, Concat(config.peers))).valid)
  }

  /** Links that validate are accepted as they are, and pruning leaves them alone. */
  lemma StoreLanguageKeeps(
      parse: string -> Option<Config>, fingerprint: Config -> string, withMtu: (string, nat) -> string,
      links: seq<BypassLink>, config: Config)
    requires StoreLanguage(parse, fingerprint, withMtu).validLinks(links, config)
    ensures var lang := StoreLanguage(parse, fingerprint, withMtu);
      && lang.validate(links, config) == Some(links) && lang.prune(links, config) == links
      && lang.admitted(links, config) == links
  {
    PruneIdentityOnValid(links, Concat(config.peers));
    assert Lawful(StoreLanguage(parse, fingerprint, withMtu)) by { StoreLanguageLawful(parse, fingerprint, withMtu); }
  }

  /** The daemon's validation and pruning obey the laws, whatever the configuration parser. */
  lemma StoreLanguageLawful(
      parse: string -> Option<Config>, fingerprint: Config -> string, withMtu: (string, nat) -> string)
    ensures Lawful(StoreLanguage(parse, fingerprint, withMtu))
  {
    var lang := StoreLanguage(parse, fingerprint, withMtu);
    forall config: Config
      ensures lang.validLinks([], config)
    {
      ValidatedIsSound([], Concat(config.peers));
    }
    forall links: seq<BypassLink>, config: Config | lang.validate(links, config).Some?
      ensures lang.validLinks(lang.validate(links, config).value, config)
    {
      AcceptedValidates(links, Concat(config.peers));
    }
    forall links: seq<BypassLink>, before: Config, after: Config {:trigger lang.validLinks(links, before),
      lang.prune(links, after)}
      | lang.validLinks(links, before)
      ensures lang.validLinks(lang.prune(links, after), after)
    {
      CarryOverAccepted(links, Concat(before.peers), Concat(after.peers));
    }
  }

  /** The text a configuration is parsed from, with a recorded MTU override applied. */
  function Effective(lang: Language, text: string, mtu: Option<nat>): string {
    match mtu
    case None => text
    case Some(m) => lang.withMtu(text, m)
  }

  /** `reparse_and_verify`: the raw text still fingerprints to the recorded identity. */
  predicate Reparses(lang: Language, r: Record) {
    var parsed := lang.parse(r.rawConf);
    parsed.Some? && lang.fingerprint(parsed.value) == r.fingerprint
  }

  /** A record agrees with itself: text, parsed form, identity, interface and links. */
  predicate SelfConsistent(lang: Language, r: Record) {
    && lang.parse(r.rawConf) == Some(r.config)
    && lang.fingerprint(r.config) == r.fingerprint
    && r.interface == InterfaceName(r.id)
    && (r.global <==> r.owner.None?)
    && lang.validLinks(r.links, r.config)
  }

  /** The part of a record only a refresh may change, and the part nothing may change. */
  predicate SameFixed(a: Record, b: Record) {
    && a.id == b.id && a.global == b.global && a.owner == b.owner && a.interface == b.interface
    && a.mtuOverride == b.mtuOverride
    && a.fingerprint == b.fingerprint && a.config == b.config && a.rawConf == b.rawConf
  }

  predicate HasIdentity(r: Record, fingerprint: string, global: bool, owner: Option<nat>) {
    r.fingerprint == fingerprint && r.global == global && r.owner == owner
  }

  predicate HasName(r: Record, name: string, global: bool, owner: Option<nat>) {
    r.name == Some(name) && r.global == global && r.owner == owner
  }

  /** `authorize_access`. Uid 0 is root. */
  predicate Authorized(r: Record, uid: nat) {
    if r.global then uid == 0 else uid == 0 || r.owner == Some(uid)
  }

  /** `ActiveConnectionState`: the socket is named by its incarnation. */
  datatype Marker = Marker(fingerprint: string, socket: nat, debug: bool)

  /** One helper launch, and with it one incarnation of the interface's socket. */
  datatype Launch = Launch(
    id: ConnectionId, interface: Interface, fingerprint: string, rawConf: string, links: seq<BypassLink>)
}
