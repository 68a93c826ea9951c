/**
  Route planning of the userspace helper (src/userspace_helper/macos/routes.rs)
  as far as bypass links reach into it: which AllowedIPs routes are installed
  for the subnets the machine is attached to, and what longest-prefix match
  (section 5.1 of RFC 4632) then does with a packet.
 */
module Routes {
  import opened Wrappers
  import opened Cidr
  import opened BypassLinks

  datatype Inputs = Inputs(allowedIps: seq<Net>, hasV4: bool, hasV6: bool, links: seq<BypassLink>)

  predicate HasFamily(inputs: Inputs, family: Family) {
    match family
    case V4 => inputs.hasV4
    case V6 => inputs.hasV6
  }

  /** The two halves a literal default route is installed as. */
  function Halves(family: Family): seq<Net> {
    [Prefix(family, Zeros(Width(family)), 1), Prefix(family, [true] + Zeros(Width(family) - 1), 1)]
  }

  predicate IsDefault(entry: Net) {
    entry == Prefix(entry.family, Zeros(Width(entry.family)), 0)
  }

  function RoutesFor(inputs: Inputs, entry: Net): seq<Net> {
    if !HasFamily(inputs, entry.family) then []
    else if IsDefault(entry) then Halves(entry.family)
    else [entry]
  }

  function AllowedRoutesUpTo(inputs: Inputs, n: nat): seq<Net>
    requires n <= |inputs.allowedIps|
  {
    if n == 0 then [] else AllowedRoutesUpTo(inputs, n - 1) + RoutesFor(inputs, inputs.allowedIps[n - 1])
  }

  function AllowedRoutes(inputs: Inputs): seq<Net> {
    AllowedRoutesUpTo(inputs, |inputs.allowedIps|)
  }

  /** `macos_subnet_contains` on the normalised destination. */
  predicate ExcludedByLocal(destination: Net, locals: seq<Net>) {
    exists local :: local in locals && Contains(local, Trunc(destination))
  }

  /** Whether some connected subnet contains the anchor. */
  predicate Active(link: BypassLink, locals: seq<Net>) {
    exists local :: local in locals && Contains(local, link.anchor)
  }

  predicate ExcludedByLink(destination: Net, locals: seq<Net>, links: seq<BypassLink>) {
    exists link :: link in links && Matches(link.bypass, Trunc(destination)) && Active(link, locals)
  }

  predicate Installed(destination: Net, locals: seq<Net>, links: seq<BypassLink>) {
    !ExcludedByLocal(destination, locals) && !ExcludedByLink(destination, locals, links)
  }

  function Filter(routes: seq<Net>, keep: Net -> bool): (r: seq<Net>)
    ensures forall e :: e in r <==> e in routes && keep(e)
  {
    if routes == [] then [] else
    var init, last := routes[..|routes| - 1], routes[|routes| - 1];
    assert routes == init + [last];
    if keep(last) then Filter(init, keep) + [last] else Filter(init, keep)
  }

  /** The tunnel-bound part of `macos_desired_routes`. */
  function Desired(inputs: Inputs, locals: seq<Net>): seq<Net> {
    Filter(AllowedRoutes(inputs), (e: Net) => Installed(e, locals, inputs.links))
  }

  method AllowedRoutesLoop(inputs: Inputs) returns (routes: seq<Net>)
    ensures routes == AllowedRoutes(inputs)
  {
    routes := [];
    for i := 0 to |inputs.allowedIps|
      invariant routes == AllowedRoutesUpTo(inputs, i)
    {
      var entry := inputs.allowedIps[i];
      if HasFamily(inputs, entry.family) {
        if IsDefault(entry) {
          routes := routes + Halves(entry.family);
        } else {
          routes := routes + [entry];
        }
      }
    }
  }

  method DesiredRoutes(inputs: Inputs, locals: seq<Net>) returns (desired: seq<Net>)
    ensures desired == Desired(inputs, locals)
  {
    var routes := AllowedRoutesLoop(inputs);
    desired := [];
    for i := 0 to |routes|
      invariant desired == Filter(routes[..i], (e: Net) => Installed(e, locals, inputs.links))
    {
      assert routes[..i + 1][..i] == routes[..i];
      if Installed(routes[i], locals, inputs.links) {
        desired := desired + [routes[i]];
      }
    }
    assert routes[..|routes|] == routes;
  }

  // ---- longest-prefix match ---------------------------------------------------------

  /** The route a packet to `x` takes, if the tunnel has one for it. */
  function LongestMatch(routes: seq<Net>, x: Addr): (r: Option<Net>)
    ensures r.None? <==> forall e :: e in routes ==> !Covers(e, x)
    ensures r.Some? ==> r.value in routes && Covers(r.value, x)
    ensures r.Some? ==> forall e :: e in routes && Covers(e, x) ==> e.len <= r.value.len
  {
    if routes == [] then None else
    var init, last := routes[..|routes| - 1], routes[|routes| - 1];
    assert routes == init + [last];
    var best := LongestMatch(init, x);
    if Covers(last, x) && (best.None? || best.value.len < last.len) then Some(last) else best
  }

  lemma AllowedRouteOrigin(inputs: Inputs, n: nat, route: Net)
    requires n <= |inputs.allowedIps|
    requires route in AllowedRoutesUpTo(inputs, n)
    ensures exists i :: 0 <= i < n && inputs.allowedIps[i].family == route.family
                        && (inputs.allowedIps[i] == route || inputs.allowedIps[i].len == 0)
  {
    if route in RoutesFor(inputs, inputs.allowedIps[n - 1]) {
      assert inputs.allowedIps[n - 1].family == route.family;
    } else {
      AllowedRouteOrigin(inputs, n - 1, route);
    }
  }

  lemma NoDefaultBesides(anchor: Net, prefix: Net, allowed: seq<Net>, entry: Net)
    requires CheckPrefix(anchor, prefix, allowed).Fine?
    requires entry in allowed && entry.family == prefix.family
    ensures entry.len > 0
  {
  }

  /** Every route that covers an address of an active bypass prefix is excluded with it. */
  lemma CapturingRouteExcluded(inputs: Inputs, locals: seq<Net>, link: BypassLink, prefix: Net, x: Addr, route: Net)
    requires Validated(inputs.links, inputs.allowedIps)
    requires link in inputs.links && Active(link, locals)
    requires prefix in link.bypass && Covers(prefix, x)
    requires route in AllowedRoutes(inputs) && Covers(route, x)
    ensures ExcludedByLink(route, locals, inputs.links)
  {
    var allowed := Truncs(inputs.allowedIps);
    ValidatedIsSound(inputs.links, inputs.allowedIps);
    CheckPrefixExact(link.anchor, prefix, allowed);
    AllowedRouteOrigin(inputs, |inputs.allowedIps|, route);
    var i :| 0 <= i < |inputs.allowedIps| && inputs.allowedIps[i].family == route.family
             && (inputs.allowedIps[i] == route || inputs.allowedIps[i].len == 0);
    var entry := inputs.allowedIps[i];
    assert allowed[i] == Trunc(entry);
    NoDefaultBesides(link.anchor, prefix, allowed, Trunc(entry));
    TruncKeepsMeaning(route);
    assert Contains(prefix, Trunc(route));
  }

  /**
    Safety of a link: while its anchor is connected, no tunnel route captures any
    address inside one of its bypass prefixes.
   */
  lemma ActiveLinkFreesItsPrefixes(inputs: Inputs, locals: seq<Net>, link: BypassLink, prefix: Net, x: Addr)
    requires Validated(inputs.links, inputs.allowedIps)
    requires link in inputs.links && Active(link, locals)
    requires prefix in link.bypass && Covers(prefix, x)
    ensures LongestMatch(Desired(inputs, locals), x) == None
  {
    forall route | route in AllowedRoutes(inputs) && Covers(route, x)
      ensures ExcludedByLink(route, locals, inputs.links)
    {
      CapturingRouteExcluded(inputs, locals, link, prefix, x, route);
    }
  }

  lemma MatchSnoc(routes: seq<Net>, last: Net, x: Addr)
    ensures LongestMatch(routes + [last], x)
         == var best := LongestMatch(routes, x);
            if Covers(last, x) && (best.None? || best.value.len < last.len) then Some(last) else best
  {
    assert (routes + [last])[..|routes|] == routes;
  }

  /** Filters that differ only on routes not covering `x` send `x` the same way. */
  lemma {:induction false} FilterKeepsMatch(routes: seq<Net>, keep: Net -> bool, keep': Net -> bool, x: Addr)
    requires forall e :: e in routes && keep(e) != keep'(e) ==> !Covers(e, x)
    ensures LongestMatch(Filter(routes, keep), x) == LongestMatch(Filter(routes, keep'), x)
  {
    if routes != [] {
      var init, last := routes[..|routes| - 1], routes[|routes| - 1];
      assert routes == init + [last];
      FilterKeepsMatch(init, keep, keep', x);
      MatchSnoc(Filter(init, keep), last, x);
      MatchSnoc(Filter(init, keep'), last, x);
    }
  }

  /**
    A link changes nothing else: an address outside every bypass prefix of an
    active link takes the same route with the links as without them.
   */
  lemma OtherTrafficUnchanged(inputs: Inputs, locals: seq<Net>, x: Addr)
    requires forall link, prefix ::
      link in inputs.links && Active(link, locals) && prefix in link.bypass ==> !Covers(prefix, x)
    ensures LongestMatch(Desired(inputs, locals), x) == LongestMatch(Desired(inputs.(links := []), locals), x)
  {
    forall e | e in AllowedRoutes(inputs) && ExcludedByLink(e, locals, inputs.links)
      ensures !Covers(e, x)
    {
      var link :| link in inputs.links && Matches(link.bypass, Trunc(e)) && Active(link, locals);
      var prefix :| prefix in link.bypass && Contains(prefix, Trunc(e));
      TruncKeepsMeaning(e);
      ContainsIsInclusion(prefix, Trunc(e));
    }
    SameAllowedRoutes(inputs, |inputs.allowedIps|);
    FilterKeepsMatch(AllowedRoutes(inputs), (e: Net) => Installed(e, locals, inputs.links),
                     (e: Net) => Installed(e, locals, []), x);
  }

  lemma {:induction false} SameAllowedRoutes(inputs: Inputs, n: nat)
    requires n <= |inputs.allowedIps|
    ensures AllowedRoutesUpTo(inputs.(links := []), n) == AllowedRoutesUpTo(inputs, n)
  {
    if n > 0 {
      SameAllowedRoutes(inputs, n - 1);
    }
  }

  // ---- which routes there are -------------------------------------------------------

  /** The tunnel carries addresses of this family. */
  predicate Carries(inputs: Inputs, family: Family) {
    if family == V4 then inputs.hasV4 else inputs.hasV6
  }

  /** A literal default route: the family's zero address with length zero. */
  predicate LiteralDefault(entry: Net) {
    entry.len == 0 && forall i :: 0 <= i < |entry.bits| ==> !entry.bits[i]
  }

  /** How specific the routes of an entry are. */
  function RouteLength(entry: Net): nat {
    if LiteralDefault(entry) then 1 else entry.len
  }

  lemma DefaultIsLiteral(entry: Net)
    ensures IsDefault(entry) <==> LiteralDefault(entry)
  {
    assert LiteralDefault(entry) ==> entry.bits == Zeros(Width(entry.family));
  }

  /** The halves are two networks of length one, and every address is in exactly one of them. */
  lemma HalvesSplit(family: Family, x: Addr)
    requires x.family == family
    ensures |Halves(family)| == 2
    ensures forall h :: h in Halves(family) ==> h.family == family && h.len == 1 && Canonical(h)
    ensures Covers(Halves(family)[0], x) <==> !Covers(Halves(family)[1], x)
  {
    var low, high := Halves(family)[0], Halves(family)[1];
    assert low.bits[..1] == [false] && high.bits[..1] == [true];
    assert x.bits[..1] == [x.bits[0]];
    assert Covers(low, x) <==> [x.bits[0]] == [false];
    assert Covers(high, x) <==> [x.bits[0]] == [true];
    assert [x.bits[0]] == [true] <==> x.bits[0];
    assert [x.bits[0]] == [false] <==> !x.bits[0];
    assert Trunc(low) == low && Trunc(high) == high;
  }

  /** The routes of one entry cover what it covers, each at the entry's length. */
  lemma EntryRoutes(inputs: Inputs, entry: Net, x: Addr)
    requires Carries(inputs, x.family)
    ensures (exists r :: r in RoutesFor(inputs, entry) && Covers(r, x)) <==> Covers(entry, x)
    ensures forall r :: r in RoutesFor(inputs, entry) ==> r.len == RouteLength(entry) && r.family == entry.family
  {
    hide Halves, IsDefault;
    DefaultIsLiteral(entry);
    if entry.family == x.family {
      HalvesSplit(x.family, x);
      assert Halves(x.family)[0] in Halves(x.family) && Halves(x.family)[1] in Halves(x.family);
      if !IsDefault(entry) {
        assert entry in RoutesFor(inputs, entry);
      }
    } else {
      OtherHalves(entry.family);
    }
  }

  lemma OtherHalves(family: Family)
    ensures forall h :: h in Halves(family) ==> h.family == family && h.len == 1
  {
  }

  /** Every entry that covers an address has a route that does, as specific as the entry. */
  lemma {:induction false} EntriesHaveRoutes(inputs: Inputs, n: nat, x: Addr, i: nat) returns (r: Net)
    requires i < n <= |inputs.allowedIps| && Carries(inputs, x.family) && Covers(inputs.allowedIps[i], x)
    ensures r in AllowedRoutesUpTo(inputs, n) && Covers(r, x) && r.len == RouteLength(inputs.allowedIps[i])
  {
    hide RoutesFor, RouteLength, Covers;
    if i == n - 1 {
      EntryRoutes(inputs, inputs.allowedIps[i], x);
      r :| r in RoutesFor(inputs, inputs.allowedIps[i]) && Covers(r, x);
    } else {
      r := EntriesHaveRoutes(inputs, n - 1, x, i);
    }
  }

  /** And every route that covers an address comes from such an entry. */
  lemma {:induction false} RoutesHaveEntries(inputs: Inputs, n: nat, x: Addr, r: Net) returns (i: nat)
    requires n <= |inputs.allowedIps| && Carries(inputs, x.family)
    requires r in AllowedRoutesUpTo(inputs, n) && Covers(r, x)
    ensures i < n && Covers(inputs.allowedIps[i], x) && r.len == RouteLength(inputs.allowedIps[i])
  {
    hide RoutesFor, RouteLength, Covers;
    EntryRoutes(inputs, inputs.allowedIps[n - 1], x);
    if r in RoutesFor(inputs, inputs.allowedIps[n - 1]) {
      i := n - 1;
    } else {
      i := RoutesHaveEntries(inputs, n - 1, x, r);
    }
  }

  lemma FilterAll(routes: seq<Net>, keep: Net -> bool)
    requires forall e :: keep(e)
    ensures Filter(routes, keep) == routes
  {
  }

  /**
    Away from connected subnets and without links: an address of a family the
    tunnel has takes a route exactly if an entry covers it, as specific as the
    most specific covering entry, a literal default counting as one bit. An
    address of another family takes none.
   */
  lemma TunnelTakesWhatIsAllowed(inputs: Inputs, x: Addr)
    requires inputs.links == []
    ensures var match_ := LongestMatch(Desired(inputs, []), x);
      if !Carries(inputs, x.family) then match_ == None
      else
        && (match_.Some? <==> exists i :: 0 <= i < |inputs.allowedIps| && Covers(inputs.allowedIps[i], x))
        && (match_.Some? ==>
              && (forall i :: 0 <= i < |inputs.allowedIps| && Covers(inputs.allowedIps[i], x) ==>
                    RouteLength(inputs.allowedIps[i]) <= match_.value.len)
              && exists i :: 0 <= i < |inputs.allowedIps| && Covers(inputs.allowedIps[i], x)
                             && RouteLength(inputs.allowedIps[i]) == match_.value.len)
  {
    hide Covers, RouteLength, AllowedRoutes, LongestMatch;
    FilterAll(AllowedRoutes(inputs), (e: Net) => Installed(e, [], inputs.links));
    assert Desired(inputs, []) == AllowedRoutes(inputs);
    if Carries(inputs, x.family) {
      CarriedMatch(inputs, x);
    } else {
      NothingMatches(inputs, x);
    }
  }

  lemma CarriedMatch(inputs: Inputs, x: Addr)
    requires Carries(inputs, x.family)
    ensures var match_ := LongestMatch(AllowedRoutes(inputs), x);
      && (match_.Some? <==> exists i :: 0 <= i < |inputs.allowedIps| && Covers(inputs.allowedIps[i], x))
      && (match_.Some? ==>
            && (forall i :: 0 <= i < |inputs.allowedIps| && Covers(inputs.allowedIps[i], x) ==>
                  RouteLength(inputs.allowedIps[i]) <= match_.value.len)
            && exists i :: 0 <= i < |inputs.allowedIps| && Covers(inputs.allowedIps[i], x)
                           && RouteLength(inputs.allowedIps[i]) == match_.value.len)
  {
    hide Covers, RouteLength, AllowedRoutesUpTo, Carries, LongestMatch;
    var match_ := LongestMatch(AllowedRoutes(inputs), x);
    forall i | 0 <= i < |inputs.allowedIps| && Covers(inputs.allowedIps[i], x)
      ensures match_.Some? && RouteLength(inputs.allowedIps[i]) <= match_.value.len
    {
      var r := EntriesHaveRoutes(inputs, |inputs.allowedIps|, x, i);
    }
    if match_.Some? {
      var i := RoutesHaveEntries(inputs, |inputs.allowedIps|, x, match_.value);
    }
  }

  lemma NothingMatches(inputs: Inputs, x: Addr)
    requires !Carries(inputs, x.family)
    ensures LongestMatch(AllowedRoutes(inputs), x) == None
  {
    hide Covers, AllowedRoutesUpTo, Carries, LongestMatch;
    forall r | r in AllowedRoutes(inputs)
      ensures !Covers(r, x)
    {
      FamiliesCarried(inputs, |inputs.allowedIps|, r, x);
    }
  }

  lemma {:induction false} FamiliesCarried(inputs: Inputs, n: nat, route: Net, x: Addr)
    requires n <= |inputs.allowedIps| && route in AllowedRoutesUpTo(inputs, n)
    ensures Covers(route, x) ==> Carries(inputs, x.family)
  {
    if route in RoutesFor(inputs, inputs.allowedIps[n - 1]) {
      assert inputs.allowedIps[n - 1].family == route.family;
    } else {
      FamiliesCarried(inputs, n - 1, route, x);
    }
  }

  /** Every address of `inner` is one of `outer`. */
  ghost predicate Within(inner: Net, outer: Net) {
    forall x: Addr :: Covers(inner, x) ==> Covers(outer, x)
  }

  /**
    Of the routes for the entries exactly those are missing that lie within a
    connected subnet, or within a bypass prefix of a link whose anchor does.
   */
  lemma MissingExactly(inputs: Inputs, locals: seq<Net>, route: Net)
    requires route in AllowedRoutes(inputs)
    ensures route !in Desired(inputs, locals) <==>
      || (exists local :: local in locals && Within(route, local))
      || exists link, prefix, local ::
           && link in inputs.links && prefix in link.bypass && local in locals
           && Within(route, prefix) && Within(link.anchor, local)
  {
    hide Within, AllowedRoutes;
    forall outer: Net
      ensures Contains(outer, Trunc(route)) <==> Within(route, outer)
    {
      TruncKeepsMeaning(route);
      WithinIsContains(route, outer);
    }
    forall inner: Net, outer: Net
      ensures Contains(outer, inner) <==> Within(inner, outer)
    {
      WithinIsContains(inner, outer);
    }
    if ExcludedByLink(route, locals, inputs.links) {
      var link :| link in inputs.links && Matches(link.bypass, Trunc(route)) && Active(link, locals);
      var prefix :| prefix in link.bypass && Contains(prefix, Trunc(route));
      var local :| local in locals && Contains(local, link.anchor);
      assert Within(route, prefix) && Within(link.anchor, local);
    }
    if link, prefix, local :|
         && link in inputs.links && prefix in link.bypass && local in locals
         && Within(route, prefix) && Within(link.anchor, local) {
      assert Contains(prefix, Trunc(route)) && Contains(local, link.anchor);
      assert Matches(link.bypass, Trunc(route)) && Active(link, locals);
    }
  }

  lemma WithinIsContains(inner: Net, outer: Net)
    ensures Contains(outer, inner) <==> Within(inner, outer)
  {
    ContainsIsInclusion(outer, inner);
  }
}
