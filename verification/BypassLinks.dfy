/**
  LAN bypass links (src/bypass_links.rs): canonical form, validation against
  AllowedIPs, pruning and merging. Loops of the source are methods proved
  against the specification functions of this module.
 */
module BypassLinks {
  import opened Wrappers
  import opened Cidr

  const MAX_LINKS: nat := 32
  const MAX_PREFIXES_PER_LINK: nat := 64

  datatype BypassLink = BypassLink(anchor: Net, bypass: seq<Net>)

  datatype LinkError =
    | Empty(anchor: Net)
    | TooManyLinks
    | TooManyPrefixes(anchor: Net)
    | AnchorNotInAllowedIps(anchor: Net)
    | SameAsAnchor(anchor: Net, prefix: Net)
    | NotInAllowedIps(anchor: Net, prefix: Net)
    | InsideBroaderEntry(anchor: Net, prefix: Net, covering: Net)
    | FullTunnel(anchor: Net, prefix: Net, default: Net)

  datatype Verdict = Fine | Bad(error: LinkError)

  /** Whether the route for `destination` is taken off the tunnel. */
  predicate Matches(bypass: seq<Net>, destination: Net) {
    exists p :: p in bypass && Contains(p, destination)
  }

  // ---- appending what is missing ----------------------------------------------

  function Insert<T(==)>(acc: seq<T>, x: T): (r: seq<T>) {
    if x in acc then acc else acc + [x]
  }

  /** `acc` followed by the elements of `xs` it lacks, in order, each once. */
  function AddMissing<T(==,!new)>(acc: seq<T>, xs: seq<T>): (r: seq<T>)
    ensures acc <= r
    ensures forall x :: x in r <==> x in acc || x in xs
  {
    if xs == [] then acc else
    assert xs == xs[..|xs| - 1] + [xs[|xs| - 1]];
    Insert(AddMissing(acc, xs[..|xs| - 1]), xs[|xs| - 1])
  }

  ghost predicate NoDuplicates<T(!new)>(s: seq<T>) {
    forall i, j :: 0 <= i < j < |s| ==> s[i] != s[j]
  }

  lemma {:induction false} AddMissingNoDuplicates<T(!new)>(acc: seq<T>, xs: seq<T>)
    requires NoDuplicates(acc)
    ensures NoDuplicates(AddMissing(acc, xs))
  {
    if xs != [] {
      AddMissingNoDuplicates(acc, xs[..|xs| - 1]);
    }
  }

  lemma {:induction false} AddMissingNothing<T(!new)>(acc: seq<T>, xs: seq<T>)
    requires forall x :: x in xs ==> x in acc
    ensures AddMissing(acc, xs) == acc
  {
    if xs != [] {
      assert forall x :: x in xs[..|xs| - 1] ==> x in xs;
      AddMissingNothing(acc, xs[..|xs| - 1]);
    }
  }

  lemma {:induction false} AddMissingAll<T(!new)>(xs: seq<T>)
    requires NoDuplicates(xs)
    ensures AddMissing([], xs) == xs
  {
    if xs != [] {
      AddMissingAll(xs[..|xs| - 1]);
      assert xs == xs[..|xs| - 1] + [xs[|xs| - 1]];
    }
  }

  // ---- canonical links ----------------------------------------------------------

  function Truncs(nets: seq<Net>): (r: seq<Net>)
    ensures |r| == |nets| && forall i :: 0 <= i < |r| ==> r[i] == Trunc(nets[i])
  {
    seq(|nets|, i requires 0 <= i < |nets| => Trunc(nets[i]))
  }

  function Canon(link: BypassLink): BypassLink {
    BypassLink(Trunc(link.anchor), AddMissing([], Truncs(link.bypass)))
  }

  function CanonAll(links: seq<BypassLink>): (r: seq<BypassLink>)
    ensures |r| == |links| && forall i :: 0 <= i < |r| ==> r[i] == Canon(links[i])
  {
    seq(|links|, i requires 0 <= i < |links| => Canon(links[i]))
  }

  /** The network addresses and the duplicate-free list a canonical link consists of. */
  ghost predicate IsCanonical(link: BypassLink) {
    && Canonical(link.anchor)
    && (forall p :: p in link.bypass ==> Canonical(p))
    && NoDuplicates(link.bypass)
  }

  lemma CanonIsCanonical(link: BypassLink)
    ensures IsCanonical(Canon(link))
  {
    TruncKeepsMeaning(link.anchor);
    forall p | p in Canon(link).bypass
      ensures Canonical(p)
    {
      var i :| 0 <= i < |link.bypass| && p == Truncs(link.bypass)[i];
      TruncKeepsMeaning(link.bypass[i]);
    }
    AddMissingNoDuplicates([], Truncs(link.bypass));
  }

  lemma CanonFixesCanonical(link: BypassLink)
    requires IsCanonical(link)
    ensures Canon(link) == link
  {
    assert forall i :: 0 <= i < |link.bypass| ==> Canonical(link.bypass[i]);
    assert Truncs(link.bypass) == link.bypass;
    AddMissingAll(link.bypass);
  }

  method CanonicalLink(link: BypassLink) returns (r: BypassLink)
    ensures r == Canon(link)
  {
    var bypass: seq<Net> := [];
    for i := 0 to |link.bypass|
      invariant bypass == AddMissing([], Truncs(link.bypass[..i]))
    {
      var prefix := Trunc(link.bypass[i]);
      assert Truncs(link.bypass[..i + 1]) == Truncs(link.bypass[..i]) + [prefix];
      if prefix !in bypass {
        bypass := bypass + [prefix];
      }
    }
    assert link.bypass[..|link.bypass|] == link.bypass;
    r := BypassLink(Trunc(link.anchor), bypass);
  }

  // ---- validation ---------------------------------------------------------------

  function FindFirst(entries: seq<Net>, wanted: Net -> bool): (r: Option<Net>)
    ensures r.Some? ==> r.value in entries && wanted(r.value)
    ensures r.None? ==> forall e :: e in entries ==> !wanted(e)
  {
    if entries == [] then None
    else if wanted(entries[0]) then Some(entries[0])
    else FindFirst(entries[1..], wanted)
  }

  function CheckAnchor(anchor: Net, allowed: seq<Net>): Verdict {
    if anchor in allowed then Fine else Bad(AnchorNotInAllowedIps(anchor))
  }

  function CheckPrefix(anchor: Net, prefix: Net, allowed: seq<Net>): Verdict {
    if prefix == anchor then Bad(SameAsAnchor(anchor, prefix)) else
    var default := FindFirst(allowed, (e: Net) => e.family == prefix.family && e.len == 0);
    if default.Some? then Bad(FullTunnel(anchor, prefix, default.value)) else
    var covering :=
      FindFirst(allowed, (e: Net) => e.family == prefix.family && e.len < prefix.len && Contains(e, prefix));
    if covering.Some? then Bad(InsideBroaderEntry(anchor, prefix, covering.value)) else
    if prefix !in allowed then Bad(NotInAllowedIps(anchor, prefix)) else Fine
  }

  function CheckPrefixes(anchor: Net, prefixes: seq<Net>, allowed: seq<Net>): (r: Verdict)
    ensures r.Fine? <==> forall p :: p in prefixes ==> CheckPrefix(anchor, p, allowed).Fine?
  {
    if prefixes == [] then Fine else
    var first := CheckPrefix(anchor, prefixes[0], allowed);
    assert prefixes == [prefixes[0]] + prefixes[1..];
    if first.Bad? then first else CheckPrefixes(anchor, prefixes[1..], allowed)
  }

  function CheckLink(link: BypassLink, allowed: seq<Net>): Verdict {
    if link.bypass == [] then Bad(Empty(link.anchor))
    else if |link.bypass| > MAX_PREFIXES_PER_LINK then Bad(TooManyPrefixes(link.anchor))
    else if CheckAnchor(link.anchor, allowed).Bad? then CheckAnchor(link.anchor, allowed)
    else CheckPrefixes(link.anchor, link.bypass, allowed)
  }

  /** `check_links`: every canonical link with its verdict, in the order given. */
  function CheckLinks(links: seq<BypassLink>, allowedIps: seq<Net>): (r: seq<(BypassLink, Verdict)>)
    ensures |r| == |links|
    ensures forall i :: 0 <= i < |r| ==> r[i].0 == Canon(links[i])
  {
    seq(|links|, i requires 0 <= i < |links| =>
      var link := Canon(links[i]);
      (link, if i >= MAX_LINKS then Bad(TooManyLinks) else CheckLink(link, Truncs(allowedIps))))
  }

  datatype LinkReport = LinkReport(valid: seq<BypassLink>, invalid: seq<(BypassLink, LinkError)>)

  /** The split `validate_links` makes of the checked links. */
  function Report(checked: seq<(BypassLink, Verdict)>): (r: LinkReport)
    ensures r.invalid == [] <==> forall i :: 0 <= i < |checked| ==> checked[i].1.Fine?
    ensures r.invalid == [] ==> |r.valid| == |checked| && forall i :: 0 <= i < |checked| ==> r.valid[i] == checked[i].0
  {
    if checked == [] then LinkReport([], []) else
    var rest := Report(checked[..|checked| - 1]);
    var (link, verdict) := checked[|checked| - 1];
    match verdict
    case Fine => rest.(valid := rest.valid + [link])
    case Bad(error) => rest.(invalid := rest.invalid + [(link, error)])
  }

  method SplitReport(checked: seq<(BypassLink, Verdict)>) returns (report: LinkReport)
    ensures report == Report(checked)
  {
    report := LinkReport([], []);
    for i := 0 to |checked|
      invariant report == Report(checked[..i])
    {
      assert checked[..i + 1][..i] == checked[..i];
      var (link, verdict) := checked[i];
      match verdict {
        case Fine => report := report.(valid := report.valid + [link]);
        case Bad(error) => report := report.(invalid := report.invalid + [(link, error)]);
      }
    }
    assert checked[..|checked|] == checked;
  }

  method ValidateLinks(links: seq<BypassLink>, allowedIps: seq<Net>) returns (report: LinkReport)
    ensures report == Report(CheckLinks(links, allowedIps))
  {
    report := SplitReport(CheckLinks(links, allowedIps));
  }

  datatype Strict = Accepted(links: seq<BypassLink>) | Rejected(error: LinkError)

  /** `validate_links_strict`: all of the canonical links, or the first error. */
  function ValidateStrict(links: seq<BypassLink>, allowedIps: seq<Net>): Strict {
    var report := Report(CheckLinks(links, allowedIps));
    if report.invalid != [] then Rejected(report.invalid[0].1) else Accepted(report.valid)
  }

  /** What a stored record promises of its links. */
  ghost predicate Validated(links: seq<BypassLink>, allowedIps: seq<Net>) {
    ValidateStrict(links, allowedIps) == Accepted(links)
  }

  /** Strict validation accepts exactly when every link is fine, and then returns the canonical links. */
  lemma StrictIsAllFine(links: seq<BypassLink>, allowedIps: seq<Net>)
    ensures ValidateStrict(links, allowedIps).Accepted? <==>
      forall i :: 0 <= i < |links| ==> CheckLinks(links, allowedIps)[i].1.Fine?
    ensures ValidateStrict(links, allowedIps).Accepted? ==> ValidateStrict(links, allowedIps).links == CanonAll(links)
  {
  }

  /** What the daemon stores after a successful validation validates again, to itself. */
  lemma AcceptedValidates(links: seq<BypassLink>, allowedIps: seq<Net>)
    requires ValidateStrict(links, allowedIps).Accepted?
    ensures Validated(ValidateStrict(links, allowedIps).links, allowedIps)
  {
    StrictIsAllFine(links, allowedIps);
    var stored := CanonAll(links);
    forall i | 0 <= i < |stored|
      ensures Canon(stored[i]) == stored[i]
    {
      CanonIsCanonical(links[i]);
      CanonFixesCanonical(Canon(links[i]));
    }
    assert CheckLinks(stored, allowedIps) == CheckLinks(links, allowedIps);
    StrictIsAllFine(stored, allowedIps);
  }

  /**
    What the check of one prefix means for traffic. Removing every entry inside
    `prefix` takes all of its addresses off the tunnel.
   */
  ghost predicate RemovalFrees(prefix: Net, allowed: seq<Net>) {
    forall e: Net, x: Addr :: e in allowed && Covers(prefix, x) && Covers(e, x) ==> Contains(prefix, e)
  }

  /**
    The syntactic checks are exact: a prefix passes if and only if it is not the
    anchor, not a default route, has a tunnel route of its own, and removing the
    routes inside it leaves no route that still captures one of its addresses.
   */
  lemma CheckPrefixExact(anchor: Net, prefix: Net, allowed: seq<Net>)
    ensures CheckPrefix(anchor, prefix, allowed).Fine?
       <==> prefix != anchor && prefix.len > 0 && prefix in allowed && RemovalFrees(prefix, allowed)
  {
    if CheckPrefix(anchor, prefix, allowed).Fine? {
      forall e: Net, x: Addr | e in allowed && Covers(prefix, x) && Covers(e, x)
        ensures Contains(prefix, e)
      {
        if e.len < prefix.len {
          CoveringPrefixesNest(e, prefix, x);
        } else {
          CoveringPrefixesNest(prefix, e, x);
        }
      }
    }
    if RemovalFrees(prefix, allowed) && prefix.len > 0 {
      forall e: Net | e in allowed && e.family == prefix.family && Contains(e, prefix)
        ensures prefix.len <= e.len
      {
        ContainsCovers(e, prefix, Base(prefix));
      }
      assert forall e: Net :: e in allowed && e.family == prefix.family && e.len == 0 ==> Contains(e, prefix);
    }
  }

  // ---- pruning --------------------------------------------------------------------

  datatype Removed = Removed(anchor: Net, prefix: Option<Net>, reason: LinkError)

  datatype Pruned = Pruned(links: seq<BypassLink>, removed: seq<Removed>)

  function Kept(anchor: Net, prefixes: seq<Net>, allowed: seq<Net>): (r: seq<Net>) {
    if prefixes == [] then [] else
    var last := prefixes[|prefixes| - 1];
    Kept(anchor, prefixes[..|prefixes| - 1], allowed)
      + if CheckPrefix(anchor, last, allowed).Fine? then [last] else []
  }

  function Dropped(anchor: Net, prefixes: seq<Net>, allowed: seq<Net>): (r: seq<Removed>) {
    if prefixes == [] then [] else
    var last := prefixes[|prefixes| - 1];
    Dropped(anchor, prefixes[..|prefixes| - 1], allowed)
      + match CheckPrefix(anchor, last, allowed)
        case Fine => []
        case Bad(reason) => [Removed(anchor, Some(last), reason)]
  }

  /** The contribution of one canonical link to the pruned set. */
  function PruneOne(link: BypassLink, allowed: seq<Net>): Pruned {
    var kept := Kept(link.anchor, link.bypass, allowed);
    match CheckAnchor(link.anchor, allowed)
    case Bad(reason) => Pruned([], [Removed(link.anchor, None, reason)])
    case Fine =>
      if kept == [] then
        Pruned([], Dropped(link.anchor, link.bypass, allowed) + [Removed(link.anchor, None, Empty(link.anchor))])
      else
        Pruned([BypassLink(link.anchor, kept)], Dropped(link.anchor, link.bypass, allowed))
  }

  function Flatten(parts: seq<Pruned>): Pruned {
    if parts == [] then Pruned([], []) else
    var before, last := Flatten(parts[..|parts| - 1]), parts[|parts| - 1];
    Pruned(before.links + last.links, before.removed + last.removed)
  }

  function PruneEach(links: seq<BypassLink>, allowed: seq<Net>): (r: seq<Pruned>)
    ensures |r| == |links| && forall i :: 0 <= i < |r| ==> r[i] == PruneOne(links[i], allowed)
  {
    seq(|links|, i requires 0 <= i < |links| => PruneOne(links[i], allowed))
  }

  /** `prune_links`: the contributions of the canonical links, in order. */
  function Prune(links: seq<BypassLink>, allowedIps: seq<Net>): Pruned {
    Flatten(PruneEach(CanonAll(links), Truncs(allowedIps)))
  }

  method PruneLink(link: BypassLink, allowed: seq<Net>) returns (pruned: Pruned)
    ensures pruned == PruneOne(link, allowed)
  {
    var anchor := link.anchor;
    var verdict := CheckAnchor(anchor, allowed);
    if verdict.Bad? {
      return Pruned([], [Removed(anchor, None, verdict.error)]);
    }
    var kept: seq<Net> := [];
    var removed: seq<Removed> := [];
    for j := 0 to |link.bypass|
      invariant kept == Kept(anchor, link.bypass[..j], allowed)
      invariant removed == Dropped(anchor, link.bypass[..j], allowed)
    {
      assert link.bypass[..j + 1][..j] == link.bypass[..j];
      match CheckPrefix(anchor, link.bypass[j], allowed) {
        case Fine => kept := kept + [link.bypass[j]];
        case Bad(reason) => removed := removed + [Removed(anchor, Some(link.bypass[j]), reason)];
      }
    }
    assert link.bypass[..|link.bypass|] == link.bypass;
    if kept == [] {
      pruned := Pruned([], removed + [Removed(anchor, None, Empty(anchor))]);
    } else {
      pruned := Pruned([BypassLink(anchor, kept)], removed);
    }
  }

  method PruneLinks(links: seq<BypassLink>, allowedIps: seq<Net>) returns (pruned: Pruned)
    ensures pruned == Prune(links, allowedIps)
  {
    var allowed := Truncs(allowedIps);
    ghost var parts := PruneEach(CanonAll(links), allowed);
    pruned := Pruned([], []);
    for i := 0 to |links|
      invariant pruned == Flatten(parts[..i])
    {
      var link := CanonicalLink(links[i]);
      var part := PruneLink(link, allowed);
      assert parts[..i + 1][..i] == parts[..i];
      pruned := Pruned(pruned.links + part.links, pruned.removed + part.removed);
    }
    assert parts[..|links|] == parts;
  }

  lemma {:induction false} KeptMeaning(anchor: Net, prefixes: seq<Net>, allowed: seq<Net>)
    ensures var kept := Kept(anchor, prefixes, allowed);
      && |kept| <= |prefixes|
      && (forall p :: p in kept <==> p in prefixes && CheckPrefix(anchor, p, allowed).Fine?)
      && (NoDuplicates(prefixes) ==> NoDuplicates(kept))
  {
    if prefixes != [] {
      var init := prefixes[..|prefixes| - 1];
      KeptMeaning(anchor, init, allowed);
      assert prefixes == init + [prefixes[|prefixes| - 1]];
    }
  }

  lemma {:induction false} AllFineKept(anchor: Net, prefixes: seq<Net>, allowed: seq<Net>)
    requires forall p :: p in prefixes ==> CheckPrefix(anchor, p, allowed).Fine?
    ensures Kept(anchor, prefixes, allowed) == prefixes && Dropped(anchor, prefixes, allowed) == []
  {
    if prefixes != [] {
      AllFineKept(anchor, prefixes[..|prefixes| - 1], allowed);
      assert prefixes == prefixes[..|prefixes| - 1] + [prefixes[|prefixes| - 1]];
    }
  }

  /** A link every part of which still validates: what pruning leaves behind. */
  ghost predicate Sound(link: BypassLink, allowed: seq<Net>) {
    && IsCanonical(link)
    && link.bypass != []
    && link.anchor in allowed
    && (forall p :: p in link.bypass ==> CheckPrefix(link.anchor, p, allowed).Fine?)
  }

  lemma PruneOneSound(link: BypassLink, allowed: seq<Net>)
    requires IsCanonical(link)
    ensures forall l :: l in PruneOne(link, allowed).links ==> Sound(l, allowed) && |l.bypass| <= |link.bypass|
    ensures |PruneOne(link, allowed).links| <= 1
    ensures Sound(link, allowed) ==> PruneOne(link, allowed) == Pruned([link], [])
  {
    KeptMeaning(link.anchor, link.bypass, allowed);
    if Sound(link, allowed) {
      AllFineKept(link.anchor, link.bypass, allowed);
    }
  }

  /** A part of a pruned set is sound and at most one link of bounded size. */
  ghost predicate SoundPart(part: Pruned, allowed: seq<Net>, limit: nat) {
    |part.links| <= 1 && forall l :: l in part.links ==> Sound(l, allowed) && |l.bypass| <= limit
  }

  lemma {:induction false} FlattenSound(parts: seq<Pruned>, allowed: seq<Net>, limit: nat)
    requires forall i :: 0 <= i < |parts| ==> SoundPart(parts[i], allowed, limit)
    ensures var out := Flatten(parts).links;
      |out| <= |parts| && forall l :: l in out ==> Sound(l, allowed) && |l.bypass| <= limit
  {
    if parts != [] {
      FlattenSound(parts[..|parts| - 1], allowed, limit);
      assert SoundPart(parts[|parts| - 1], allowed, limit);
    }
  }

  lemma {:induction false} FlattenSingletons(links: seq<BypassLink>, parts: seq<Pruned>)
    requires |parts| == |links| && forall i :: 0 <= i < |links| ==> parts[i] == Pruned([links[i]], [])
    ensures Flatten(parts) == Pruned(links, [])
  {
    if links != [] {
      FlattenSingletons(links[..|links| - 1], parts[..|parts| - 1]);
      assert links == links[..|links| - 1] + [links[|links| - 1]];
    }
  }

  lemma PruneEachSound(links: seq<BypassLink>, allowed: seq<Net>, limit: nat)
    requires forall l :: l in links ==> IsCanonical(l) && |l.bypass| <= limit
    ensures var out := Flatten(PruneEach(links, allowed)).links;
      |out| <= |links| && forall l :: l in out ==> Sound(l, allowed) && |l.bypass| <= limit
  {
    var parts := PruneEach(links, allowed);
    forall i | 0 <= i < |parts|
      ensures SoundPart(parts[i], allowed, limit)
    {
      PruneOneSound(links[i], allowed);
    }
    FlattenSound(parts, allowed, limit);
  }

  lemma PruneEachIdentity(links: seq<BypassLink>, allowed: seq<Net>)
    requires forall l :: l in links ==> Sound(l, allowed)
    ensures Flatten(PruneEach(links, allowed)) == Pruned(links, [])
  {
    var parts := PruneEach(links, allowed);
    forall i | 0 <= i < |links|
      ensures parts[i] == Pruned([links[i]], [])
    {
      assert Sound(links[i], allowed);
      PruneOneSound(links[i], allowed);
    }
    FlattenSingletons(links, parts);
  }

  lemma CanonAllCanonical(links: seq<BypassLink>)
    ensures forall l :: l in CanonAll(links) ==> IsCanonical(l)
  {
    forall l | l in CanonAll(links)
      ensures IsCanonical(l)
    {
      var i :| 0 <= i < |links| && l == CanonAll(links)[i];
      CanonIsCanonical(links[i]);
    }
  }

  lemma CanonAllFixes(links: seq<BypassLink>)
    requires forall l :: l in links ==> IsCanonical(l)
    ensures CanonAll(links) == links
  {
    forall i | 0 <= i < |links| {
      CanonFixesCanonical(links[i]);
    }
  }

  lemma CheckLinkSound(link: BypassLink, allowed: seq<Net>)
    requires IsCanonical(link)
    ensures CheckLink(link, allowed).Fine? <==> Sound(link, allowed) && |link.bypass| <= MAX_PREFIXES_PER_LINK
  {
  }

  /** A set within the size limits validates as it stands exactly when its links are sound. */
  lemma ValidatedIsSound(links: seq<BypassLink>, allowedIps: seq<Net>)
    ensures Validated(links, allowedIps)
       <==> && |links| <= MAX_LINKS
            && forall l :: l in links ==> Sound(l, Truncs(allowedIps)) && |l.bypass| <= MAX_PREFIXES_PER_LINK
  {
    hide CheckLink, ValidateStrict, Canon, Truncs;
    StrictIsAllFine(links, allowedIps);
    var allowed, checked := Truncs(allowedIps), CheckLinks(links, allowedIps);
    if |links| > MAX_LINKS {
      assert checked[MAX_LINKS].1.Bad?;
    } else if Validated(links, allowedIps) {
      CanonAllCanonical(links);
      forall l | l in links
        ensures Sound(l, allowed) && |l.bypass| <= MAX_PREFIXES_PER_LINK
      {
        var i :| 0 <= i < |links| && links[i] == l;
        assert checked[i].1.Fine?;
        CheckLinkSound(l, allowed);
      }
    }
    if |links| <= MAX_LINKS && forall l :: l in links ==> Sound(l, allowed) && |l.bypass| <= MAX_PREFIXES_PER_LINK {
      CanonAllFixes(links);
      forall i | 0 <= i < |links|
        ensures checked[i].1.Fine?
      {
        CheckLinkSound(links[i], allowed);
      }
    }
  }

  /** Pruning within the size limits leaves a set the daemon accepts in full. */
  lemma PruneValidates(links: seq<BypassLink>, allowedIps: seq<Net>)
    requires |links| <= MAX_LINKS
    requires forall i :: 0 <= i < |links| ==> |Canon(links[i]).bypass| <= MAX_PREFIXES_PER_LINK
    ensures Validated(Prune(links, allowedIps).links, allowedIps)
  {
    CanonAllCanonical(links);
    PruneEachSound(CanonAll(links), Truncs(allowedIps), MAX_PREFIXES_PER_LINK);
    ValidatedIsSound(Prune(links, allowedIps).links, allowedIps);
  }

  /** Pruning changes nothing, and reports nothing, about a set that already validates. */
  lemma PruneIdentityOnValid(links: seq<BypassLink>, allowedIps: seq<Net>)
    requires Validated(links, allowedIps)
    ensures Prune(links, allowedIps) == Pruned(links, [])
  {
    ValidatedIsSound(links, allowedIps);
    CanonAllFixes(links);
    PruneEachIdentity(links, Truncs(allowedIps));
  }

  /** Pruning twice is pruning once, whatever the size of the set. */
  lemma PruneIdempotent(links: seq<BypassLink>, allowedIps: seq<Net>)
    ensures Prune(Prune(links, allowedIps).links, allowedIps) == Pruned(Prune(links, allowedIps).links, [])
  {
    CanonAllCanonical(links);
    var limit := LongestList(CanonAll(links));
    PruneEachSound(CanonAll(links), Truncs(allowedIps), limit);
    var out := Prune(links, allowedIps).links;
    CanonAllFixes(out);
    PruneEachIdentity(out, Truncs(allowedIps));
  }

  function LongestList(links: seq<BypassLink>): (r: nat)
    ensures forall l :: l in links ==> |l.bypass| <= r
  {
    if links == [] then 0 else
    var rest := LongestList(links[1..]);
    assert links == [links[0]] + links[1..];
    if rest < |links[0].bypass| then |links[0].bypass| else rest
  }

  // Accounting: every (anchor, prefix) pair is kept, dropped, or under a dropped anchor.

  ghost function PairsOfLink(anchor: Net, prefixes: seq<Net>): multiset<(Net, Net)> {
    if prefixes == [] then multiset{} else
    PairsOfLink(anchor, prefixes[..|prefixes| - 1]) + multiset{(anchor, prefixes[|prefixes| - 1])}
  }

  ghost function Pairs(links: seq<BypassLink>): multiset<(Net, Net)> {
    if links == [] then multiset{} else
    var last := links[|links| - 1];
    Pairs(links[..|links| - 1]) + PairsOfLink(last.anchor, last.bypass)
  }

  ghost function DroppedPairs(removed: seq<Removed>): multiset<(Net, Net)> {
    if removed == [] then multiset{} else
    var last := removed[|removed| - 1];
    DroppedPairs(removed[..|removed| - 1])
      + if last.prefix.Some? then multiset{(last.anchor, last.prefix.value)} else multiset{}
  }

  /** The pairs whose whole link goes because its anchor does not validate. */
  ghost function AnchorlessPairs(links: seq<BypassLink>, allowed: seq<Net>): multiset<(Net, Net)> {
    if links == [] then multiset{} else
    var last := links[|links| - 1];
    AnchorlessPairs(links[..|links| - 1], allowed)
      + if last.anchor in allowed then multiset{} else PairsOfLink(last.anchor, last.bypass)
  }

  lemma {:induction false} PairsAppend(a: seq<BypassLink>, b: seq<BypassLink>)
    ensures Pairs(a + b) == Pairs(a) + Pairs(b)
  {
    if b == [] {
      assert a + b == a;
    } else {
      assert (a + b)[..|a + b| - 1] == a + b[..|b| - 1];
      PairsAppend(a, b[..|b| - 1]);
    }
  }

  lemma {:induction false} DroppedPairsAppend(a: seq<Removed>, b: seq<Removed>)
    ensures DroppedPairs(a + b) == DroppedPairs(a) + DroppedPairs(b)
  {
    if b == [] {
      assert a + b == a;
    } else {
      assert (a + b)[..|a + b| - 1] == a + b[..|b| - 1];
      DroppedPairsAppend(a, b[..|b| - 1]);
    }
  }

  lemma {:induction false} PairsSplit(anchor: Net, prefixes: seq<Net>, allowed: seq<Net>)
    ensures PairsOfLink(anchor, prefixes)
         == PairsOfLink(anchor, Kept(anchor, prefixes, allowed)) + DroppedPairs(Dropped(anchor, prefixes, allowed))
  {
    if prefixes != [] {
      var init, last := prefixes[..|prefixes| - 1], prefixes[|prefixes| - 1];
      PairsSplit(anchor, init, allowed);
      var kept, dropped := Kept(anchor, init, allowed), Dropped(anchor, init, allowed);
      match CheckPrefix(anchor, last, allowed) {
        case Fine =>
          assert (kept + [last])[..|kept|] == kept;
          assert dropped + [] == dropped;
        case Bad(reason) =>
          assert (dropped + [Removed(anchor, Some(last), reason)])[..|dropped|] == dropped;
          assert kept + [] == kept;
      }
    }
  }

  lemma PruneOneAccounts(link: BypassLink, allowed: seq<Net>)
    ensures AccountsFor(link, PruneOne(link, allowed), allowed)
  {
    var kept, dropped := Kept(link.anchor, link.bypass, allowed), Dropped(link.anchor, link.bypass, allowed);
    PairsSplit(link.anchor, link.bypass, allowed);
    DroppedPairsAppend(dropped, [Removed(link.anchor, None, Empty(link.anchor))]);
    assert Pairs([BypassLink(link.anchor, kept)]) == PairsOfLink(link.anchor, kept);
  }

  /** How one part accounts for the pairs of its link. */
  ghost predicate AccountsFor(link: BypassLink, part: Pruned, allowed: seq<Net>) {
    if link.anchor in allowed then
      PairsOfLink(link.anchor, link.bypass) == Pairs(part.links) + DroppedPairs(part.removed)
    else
      Pairs(part.links) == multiset{} && DroppedPairs(part.removed) == multiset{}
  }

  lemma {:induction false} FlattenAccounts(links: seq<BypassLink>, parts: seq<Pruned>, allowed: seq<Net>)
    requires |parts| == |links| && forall i :: 0 <= i < |links| ==> AccountsFor(links[i], parts[i], allowed)
    ensures var out := Flatten(parts);
      Pairs(links) == Pairs(out.links) + DroppedPairs(out.removed) + AnchorlessPairs(links, allowed)
  {
    if links != [] {
      var init, last := parts[..|parts| - 1], parts[|parts| - 1];
      FlattenAccounts(links[..|links| - 1], init, allowed);
      PairsAppend(Flatten(init).links, last.links);
      DroppedPairsAppend(Flatten(init).removed, last.removed);
      assert AccountsFor(links[|links| - 1], last, allowed);
    }
  }

  /** Every canonical pair is accounted for exactly once as kept, dropped, or under a dropped anchor. */
  lemma PruneAccounts(links: seq<BypassLink>, allowedIps: seq<Net>)
    ensures var out := Prune(links, allowedIps);
      Pairs(CanonAll(links))
        == Pairs(out.links) + DroppedPairs(out.removed) + AnchorlessPairs(CanonAll(links), Truncs(allowedIps))
  {
    var canonical, allowed := CanonAll(links), Truncs(allowedIps);
    var parts := PruneEach(canonical, allowed);
    forall i | 0 <= i < |canonical|
      ensures AccountsFor(canonical[i], parts[i], allowed)
    {
      PruneOneAccounts(canonical[i], allowed);
    }
    FlattenAccounts(canonical, parts, allowed);
  }

  /**
    The links `add --force` carries over from a superseded record, pruned to the
    new AllowedIPs, are never rejected by the daemon and are stored as sent.
   */
  lemma CarryOverAccepted(oldLinks: seq<BypassLink>, oldAllowed: seq<Net>, newAllowed: seq<Net>)
    requires Validated(oldLinks, oldAllowed)
    ensures ValidateStrict(Prune(oldLinks, newAllowed).links, newAllowed) == Accepted(Prune(oldLinks, newAllowed).links)
  {
    ValidatedIsSound(oldLinks, oldAllowed);
    CanonAllFixes(oldLinks);
    forall i | 0 <= i < |oldLinks|
      ensures |Canon(oldLinks[i]).bypass| <= MAX_PREFIXES_PER_LINK
    {
      assert CanonAll(oldLinks)[i] == oldLinks[i];
    }
    PruneValidates(oldLinks, newAllowed);
  }

  // ---- reports --------------------------------------------------------------------

  /** How many of the first `n` links are fine. */
  function FineBefore(checked: seq<(BypassLink, Verdict)>, n: nat): nat
    requires n <= |checked|
  {
    if n == 0 then 0 else FineBefore(checked, n - 1) + if checked[n - 1].1.Fine? then 1 else 0
  }

  lemma {:induction false} FineBeforeSame(a: seq<(BypassLink, Verdict)>, b: seq<(BypassLink, Verdict)>, n: nat)
    requires n <= |a| && n <= |b| && a[..n] == b[..n]
    ensures FineBefore(a, n) == FineBefore(b, n) <= n
  {
    if n > 0 {
      assert a[..n - 1] == a[..n][..n - 1] == b[..n][..n - 1] == b[..n - 1];
      assert a[n - 1] == a[..n][n - 1] == b[..n][n - 1] == b[n - 1];
      FineBeforeSame(a, b, n - 1);
    }
  }

  /** Checked link `i` is where it belongs: a fine one among the valid, a bad one with its error among the others. */
  ghost predicate Placed(report: LinkReport, checked: seq<(BypassLink, Verdict)>, i: nat)
    requires i < |checked|
  {
    var place := FineBefore(checked, i);
    && place <= i
    && if checked[i].1.Fine? then place < |report.valid| && report.valid[place] == checked[i].0
       else i - place < |report.invalid| && report.invalid[i - place] == (checked[i].0, checked[i].1.error)
  }

  /** One more checked link leaves the others in their places. */
  lemma PlacedStays(checked: seq<(BypassLink, Verdict)>, i: nat)
    requires i < |checked| - 1 && Placed(Report(checked[..|checked| - 1]), checked[..|checked| - 1], i)
    ensures Placed(Report(checked), checked, i)
  {
    hide FineBefore, Report;
    var init := checked[..|checked| - 1];
    assert init[..i] == checked[..i] && init[i] == checked[i];
    FineBeforeSame(init, checked, i);
    ReportGrows(checked);
  }

  lemma ReportGrows(checked: seq<(BypassLink, Verdict)>)
    requires checked != []
    ensures Report(checked[..|checked| - 1]).valid <= Report(checked).valid
    ensures Report(checked[..|checked| - 1]).invalid <= Report(checked).invalid
  {
  }

  /** The report holds every link exactly once, in the order given. */
  lemma {:induction false} ReportSplits(checked: seq<(BypassLink, Verdict)>)
    ensures var report, fine := Report(checked), FineBefore(checked, |checked|);
      && fine <= |checked| && |report.valid| == fine && |report.invalid| == |checked| - fine
      && forall i :: 0 <= i < |checked| ==> Placed(report, checked, i)
  {
    if checked != [] {
      var init, n := checked[..|checked| - 1], |checked| - 1;
      ReportSplits(init);
      assert init[..n] == checked[..n];
      FineBeforeSame(init, checked, n);
      forall i | 0 <= i < n
        ensures Placed(Report(checked), checked, i)
      {
        PlacedStays(checked, i);
      }
      LastPlaced(checked);
    }
  }

  lemma LastPlaced(checked: seq<(BypassLink, Verdict)>)
    requires checked != []
    requires var init, n := checked[..|checked| - 1], |checked| - 1;
      && FineBefore(checked, n) <= n && |Report(init).valid| == FineBefore(checked, n)
      && |Report(init).invalid| == n - FineBefore(checked, n)
    ensures Placed(Report(checked), checked, |checked| - 1)
  {
  }

  /** What a reason says of a link. */
  ghost predicate ReasonHolds(error: LinkError, link: BypassLink, allowed: seq<Net>) {
    match error
    case Empty(anchor) => anchor == link.anchor && forall p :: p in link.bypass ==> CheckPrefix(anchor, p, allowed).Bad?
    case TooManyLinks => false
    case TooManyPrefixes(anchor) => anchor == link.anchor && |link.bypass| > 64
    case AnchorNotInAllowedIps(anchor) => anchor == link.anchor && anchor !in allowed
    case _ => error.anchor == link.anchor && error.prefix in link.bypass && PrefixHolds(error, allowed)
  }

  /** What a reason says of a prefix of a link. */
  ghost predicate PrefixHolds(error: LinkError, allowed: seq<Net>)
    requires error.SameAsAnchor? || error.NotInAllowedIps? || error.InsideBroaderEntry? || error.FullTunnel?
  {
    match error
    case SameAsAnchor(anchor, prefix) => prefix == anchor
    case NotInAllowedIps(_, prefix) => prefix !in allowed
    case InsideBroaderEntry(_, prefix, covering) =>
      covering in allowed && covering.len < prefix.len && forall x: Addr :: Covers(prefix, x) ==> Covers(covering, x)
    case FullTunnel(_, prefix, default) =>
      default in allowed && default.len == 0 && default.family == prefix.family
  }

  lemma CheckPrefixReason(anchor: Net, prefix: Net, allowed: seq<Net>)
    requires CheckPrefix(anchor, prefix, allowed).Bad?
    ensures var error := CheckPrefix(anchor, prefix, allowed).error;
      && (error.SameAsAnchor? || error.NotInAllowedIps? || error.InsideBroaderEntry? || error.FullTunnel?)
      && error.anchor == anchor && error.prefix == prefix && PrefixHolds(error, allowed)
  {
    var error := CheckPrefix(anchor, prefix, allowed).error;
    if error.InsideBroaderEntry? {
      ContainsIsInclusion(error.covering, prefix);
    }
  }

  /** A prefix is reported only when every prefix before it passes. */
  lemma {:induction false} CheckPrefixesReason(anchor: Net, prefixes: seq<Net>, allowed: seq<Net>)
    requires CheckPrefixes(anchor, prefixes, allowed).Bad?
    ensures exists i ::
      && 0 <= i < |prefixes| && CheckPrefixes(anchor, prefixes, allowed) == CheckPrefix(anchor, prefixes[i], allowed)
      && forall j :: 0 <= j < i ==> CheckPrefix(anchor, prefixes[j], allowed).Fine?
  {
    hide CheckPrefix;
    if CheckPrefix(anchor, prefixes[0], allowed).Fine? {
      var rest := prefixes[1..];
      CheckPrefixesReason(anchor, rest, allowed);
      var i :| 0 <= i < |rest| && CheckPrefixes(anchor, rest, allowed) == CheckPrefix(anchor, rest[i], allowed)
               && forall j :: 0 <= j < i ==> CheckPrefix(anchor, rest[j], allowed).Fine?;
      assert prefixes[i + 1] == rest[i];
      assert forall j :: 1 <= j <= i ==> prefixes[j] == rest[j - 1];
    }
  }

  /** The reason a link is refused for is true of it. */
  lemma ReasonsHold(link: BypassLink, allowed: seq<Net>)
    requires CheckLink(link, allowed).Bad?
    ensures ReasonHolds(CheckLink(link, allowed).error, link, allowed)
  {
    hide CheckPrefix, PrefixHolds, CheckPrefixes;
    if link.bypass != [] && |link.bypass| <= MAX_PREFIXES_PER_LINK && link.anchor in allowed {
      CheckPrefixesReason(link.anchor, link.bypass, allowed);
      var i :| 0 <= i < |link.bypass|
               && CheckPrefixes(link.anchor, link.bypass, allowed) == CheckPrefix(link.anchor, link.bypass[i], allowed);
      CheckPrefixReason(link.anchor, link.bypass[i], allowed);
    }
  }

  /** What pruning reports about one link: the anchor, or a prefix of it, with a reason that is true. */
  ghost predicate RemovalHolds(removed: Removed, link: BypassLink, allowed: seq<Net>) {
    && removed.anchor == link.anchor && ReasonHolds(removed.reason, link, allowed)
    && if removed.prefix.None? then removed.reason.Empty? || removed.reason.AnchorNotInAllowedIps?
       else
         && (removed.reason.SameAsAnchor? || removed.reason.NotInAllowedIps? || removed.reason.InsideBroaderEntry?
             || removed.reason.FullTunnel?)
         && removed.prefix == Some(removed.reason.prefix)
  }

  lemma {:induction false} DroppedHolds(link: BypassLink, n: nat, allowed: seq<Net>, removed: Removed)
    requires n <= |link.bypass| && removed in Dropped(link.anchor, link.bypass[..n], allowed)
    ensures RemovalHolds(removed, link, allowed) && removed.prefix.Some?
  {
    hide CheckPrefix, PrefixHolds;
    var last := link.bypass[n - 1];
    assert link.bypass[..n][..n - 1] == link.bypass[..n - 1];
    if removed in Dropped(link.anchor, link.bypass[..n - 1], allowed) {
      DroppedHolds(link, n - 1, allowed, removed);
    } else {
      CheckPrefixReason(link.anchor, last, allowed);
    }
  }

  /** Every reason pruning reports is true of the link it reports. */
  lemma PruneReasonsHold(link: BypassLink, allowed: seq<Net>, removed: Removed)
    requires removed in PruneOne(link, allowed).removed
    ensures RemovalHolds(removed, link, allowed)
  {
    hide CheckPrefix, PrefixHolds, Dropped;
    assert link.bypass[..|link.bypass|] == link.bypass;
    KeptMeaning(link.anchor, link.bypass, allowed);
    if removed in Dropped(link.anchor, link.bypass, allowed) {
      DroppedHolds(link, |link.bypass|, allowed, removed);
    }
  }

  /** Beyond the limit a link is refused for that, within it for a reason that is true of it. */
  lemma CheckedReasons(links: seq<BypassLink>, allowedIps: seq<Net>, i: nat)
    requires i < |links| && CheckLinks(links, allowedIps)[i].1.Bad?
    ensures var error := CheckLinks(links, allowedIps)[i].1.error;
      if i >= 32 then error == TooManyLinks else ReasonHolds(error, Canon(links[i]), Truncs(allowedIps))
  {
    hide ReasonHolds, CheckLink;
    if i < MAX_LINKS {
      ReasonsHold(Canon(links[i]), Truncs(allowedIps));
    }
  }

  /** The strict form is refused for the first link that does not pass. */
  lemma StrictReason(links: seq<BypassLink>, allowedIps: seq<Net>)
    requires ValidateStrict(links, allowedIps).Rejected?
    ensures var checked := CheckLinks(links, allowedIps);
      exists i ::
        && 0 <= i < |links| && checked[i].1 == Bad(ValidateStrict(links, allowedIps).error)
        && forall j :: 0 <= j < i ==> checked[j].1.Fine?
  {
    FirstInvalid(CheckLinks(links, allowedIps));
  }

  lemma {:induction false} FirstInvalid(checked: seq<(BypassLink, Verdict)>)
    requires Report(checked).invalid != []
    ensures exists i ::
      && 0 <= i < |checked| && checked[i].1 == Bad(Report(checked).invalid[0].1)
      && forall j :: 0 <= j < i ==> checked[j].1.Fine?
  {
    var init := checked[..|checked| - 1];
    if Report(init).invalid != [] {
      FirstInvalid(init);
      var i :| 0 <= i < |init| && init[i].1 == Bad(Report(init).invalid[0].1)
               && forall j :: 0 <= j < i ==> init[j].1.Fine?;
      assert checked[i] == init[i];
    } else {
      assert checked[|checked| - 1].1 == Bad(Report(checked).invalid[0].1);
    }
  }
}
