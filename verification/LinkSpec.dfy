/**
  The `<anchor>=<prefix>[,<prefix>...]` syntax of `--set-link` and `--add-link`
  (src/bypass_links.rs). How one CIDR is printed and parsed is a parameter.
 */
module LinkSpec {
  import opened Wrappers
  import opened Text
  import opened Cidr
  import opened BypassLinks

  /** Printing and parsing of a single CIDR. */
  datatype Codec = Codec(show: Net -> string, parse: string -> Option<Net>)

  predicate Plain(s: string) {
    s != [] && forall c :: c in s ==> c != '=' && c != ',' && !IsSpace(c)
  }

  /** A printed CIDR parses to itself and uses none of the characters of the spec syntax. */
  ghost predicate Faithful(codec: Codec) {
    forall n: Net :: codec.parse(codec.show(n)) == Some(n) && Plain(codec.show(n))
  }

  // ---- printing and parsing -----------------------------------------------------------------------

  function Printed(codec: Codec, nets: seq<Net>): (r: seq<string>)
    ensures |r| == |nets| && forall i :: 0 <= i < |r| ==> r[i] == codec.show(nets[i])
  {
    seq(|nets|, i requires 0 <= i < |nets| => codec.show(nets[i]))
  }

  /** `spec`. */
  function Spec(codec: Codec, link: BypassLink): string {
    codec.show(link.anchor) + ['='] + Join(Printed(codec, link.bypass), ',')
  }

  /** A CIDR whose host bits were set and have been cleared. */
  datatype HostBitsCleared = HostBitsCleared(given: Net, canonical: Net)

  function Cleared(nets: seq<Net>): seq<HostBitsCleared> {
    if nets == [] then [] else
    var last := nets[|nets| - 1];
    Cleared(nets[..|nets| - 1]) + (if Trunc(last) != last then [HostBitsCleared(last, Trunc(last))] else [])
  }

  datatype Parsed = Link(link: BypassLink, cleared: seq<HostBitsCleared>) | Syntax | BadCidr(value: string)

  datatype Given = Nets(nets: seq<Net>) | Unparsable(value: string)

  predicate Blank(value: string) {
    Trim(value) == []
  }

  /** The CIDRs of the non-blank values in order, or the first that does not parse. */
  function GivenNets(codec: Codec, values: seq<string>): Given {
    if values == [] then Nets([]) else
    var value := values[|values| - 1];
    match GivenNets(codec, values[..|values| - 1])
    case Unparsable(v) => Unparsable(v)
    case Nets(nets) =>
      if Blank(value) then Nets(nets) else
      match codec.parse(Trim(value))
      case None => Unparsable(Trim(value))
      case Some(n) => Nets(nets + [n])
  }

  /** What a spec denotes: the canonical form of the link it spells out, and the host bits cleared on the way. */
  function Denotes(codec: Codec, spec: string): Parsed {
    match SplitOnce(spec, '=')
    case None => Syntax
    case Some((anchorText, prefixes)) =>
      match codec.parse(Trim(anchorText))
      case None => BadCidr(Trim(anchorText))
      case Some(anchor) =>
        match GivenNets(codec, Split(prefixes, ','))
        case Unparsable(value) => BadCidr(value)
        case Nets(nets) =>
          if nets == [] then Syntax else Link(Canon(BypassLink(anchor, nets)), Cleared([anchor] + nets))
  }

  /** The values read so far gave these CIDRs, and the loop's lists are what they amount to. */
  ghost predicate ReadSoFar(
      codec: Codec, anchor: Net, values: seq<string>, nets: seq<Net>, bypass: seq<Net>, cleared: seq<HostBitsCleared>) {
    && GivenNets(codec, values) == Nets(nets)
    && bypass == AddMissing([], Truncs(nets)) && |nets| <= |values|
    && cleared == Cleared([anchor] + nets)
  }

  lemma ReadBlank(
      codec: Codec, anchor: Net, values: seq<string>, value: string, nets: seq<Net>, bypass: seq<Net>,
        cleared: seq<HostBitsCleared>)
    requires ReadSoFar(codec, anchor, values, nets, bypass, cleared) && Blank(value)
    ensures ReadSoFar(codec, anchor, values + [value], nets, bypass, cleared)
  {
    hide Blank, AddMissing, Cleared;
    assert (values + [value])[..|values|] == values;
  }

  lemma ReadBad(codec: Codec, values: seq<string>, value: string)
    requires GivenNets(codec, values).Nets? && !Blank(value) && codec.parse(Trim(value)).None?
    ensures GivenNets(codec, values + [value]) == Unparsable(Trim(value))
  {
    hide Blank, Trim;
    assert (values + [value])[..|values|] == values;
  }

  lemma GivenSnoc(codec: Codec, values: seq<string>, value: string, nets: seq<Net>, net: Net)
    requires GivenNets(codec, values) == Nets(nets) && !Blank(value) && codec.parse(Trim(value)) == Some(net)
    ensures GivenNets(codec, values + [value]) == Nets(nets + [net])
  {
    hide Blank, Trim;
    assert (values + [value])[..|values|] == values;
  }

  lemma TruncsSnoc(nets: seq<Net>, net: Net)
    ensures AddMissing([], Truncs(nets + [net])) == Insert(AddMissing([], Truncs(nets)), Trunc(net))
  {
    hide Trunc, Insert;
    var all := Truncs(nets + [net]);
    assert all == Truncs(nets) + [Trunc(net)];
    assert all[..|all| - 1] == Truncs(nets);
  }

  lemma ClearedSnoc(nets: seq<Net>, net: Net)
    ensures Cleared(nets + [net]) == Cleared(nets) + Cleared([net])
  {
    hide Trunc;
    assert (nets + [net])[..|nets|] == nets;
    assert [net][..0] == [];
  }

  lemma ReadGood(
      codec: Codec, anchor: Net, values: seq<string>, value: string, nets: seq<Net>, bypass: seq<Net>,
        cleared: seq<HostBitsCleared>, net: Net)
    requires ReadSoFar(codec, anchor, values, nets, bypass, cleared) && !Blank(value)
      && codec.parse(Trim(value)) == Some(net)
    ensures ReadSoFar(codec, anchor, values + [value], nets + [net], Insert(bypass, Trunc(net)),
                      cleared + Cleared([net]))
  {
    hide Blank, Trim, Trunc, GivenNets, AddMissing, Insert, Cleared;
    GivenSnoc(codec, values, value, nets, net);
    TruncsSnoc(nets, net);
    ClearedSnoc([anchor] + nets, net);
    assert [anchor] + (nets + [net]) == [anchor] + nets + [net];
  }

  method ParseLinkSpec(codec: Codec, spec: string) returns (r: Parsed)
    ensures r == Denotes(codec, spec)
  {
    hide Trunc, Trim, SplitOnce, Split, Blank, GivenNets, ReadSoFar, Cleared;
    var halves := SplitOnce(spec, '=');
    if halves.None? {
      return Syntax;
    }
    var given := codec.parse(Trim(halves.value.0));
    if given.None? {
      return BadCidr(Trim(halves.value.0));
    }
    var cleared, bypass, values := ClearedBits(given.value), [], Split(halves.value.1, ',');
    ghost var nets: seq<Net> := [];
    ReadNothing(codec, given.value);
    for i := 0 to |values|
      invariant ReadSoFar(codec, given.value, values[..i], nets, bypass, cleared)
    {
      assert values[..i + 1] == values[..i] + [values[i]];
      if Blank(values[i]) {
        ReadBlank(codec, given.value, values[..i], values[i], nets, bypass, cleared);
      } else {
        var net := codec.parse(Trim(values[i]));
        if net.None? {
          ReadNets(codec, given.value, values[..i], nets, bypass, cleared);
          ReadBad(codec, values[..i], values[i]);
          BadValueStays(codec, values, i + 1);
          return BadCidr(Trim(values[i]));
        }
        ReadGood(codec, given.value, values[..i], values[i], nets, bypass, cleared, net.value);
        cleared := cleared + ClearedBits(net.value);
        if Trunc(net.value) !in bypass {
          bypass := bypass + [Trunc(net.value)];
        }
        nets := nets + [net.value];
      }
    }
    assert values[..|values|] == values;
    ReadNets(codec, given.value, values, nets, bypass, cleared);
    if bypass == [] {
      return Syntax;
    }
    r := Link(BypassLink(Trunc(given.value), bypass), cleared);
  }

  function ClearedBits(given: Net): (r: seq<HostBitsCleared>)
    ensures r == Cleared([given])
  {
    assert [given][..0] == [];
    if Trunc(given) != given then [HostBitsCleared(given, Trunc(given))] else []
  }

  lemma ReadNothing(codec: Codec, anchor: Net)
    ensures ReadSoFar(codec, anchor, [], [], [], Cleared([anchor]))
  {
    assert [anchor] + [] == [anchor];
    assert Truncs([]) == [];
  }

  lemma ReadNets(
      codec: Codec, anchor: Net, values: seq<string>, nets: seq<Net>, bypass: seq<Net>, cleared: seq<HostBitsCleared>)
    requires ReadSoFar(codec, anchor, values, nets, bypass, cleared)
    ensures GivenNets(codec, values) == Nets(nets) && cleared == Cleared([anchor] + nets)
    ensures bypass == AddMissing([], Truncs(nets)) && (bypass == [] <==> nets == [])
  {
    if nets != [] {
      assert Truncs(nets)[0] in bypass;
    }
  }

  lemma {:induction false} BadValueStays(codec: Codec, values: seq<string>, i: nat)
    requires i <= |values| && GivenNets(codec, values[..i]).Unparsable?
    ensures GivenNets(codec, values) == GivenNets(codec, values[..i])
    decreases |values| - i
  {
    if i < |values| {
      assert values[..i + 1][..i] == values[..i];
      BadValueStays(codec, values, i + 1);
    } else {
      assert values[..i] == values;
    }
  }

  // ---- round trip ----------------------------------------------------------------------------------------

  lemma {:induction false} PrintedParse(codec: Codec, nets: seq<Net>)
    requires Faithful(codec)
    ensures GivenNets(codec, Printed(codec, nets)) == Nets(nets)
  {
    if nets != [] {
      var init, last := nets[..|nets| - 1], nets[|nets| - 1];
      PrintedParse(codec, init);
      assert Printed(codec, nets)[..|nets| - 1] == Printed(codec, init);
      assert Plain(codec.show(last));
      TrimPlain(codec.show(last));
      assert init + [last] == nets;
    }
  }

  lemma {:induction false} NothingCleared(nets: seq<Net>)
    requires forall n :: n in nets ==> Canonical(n)
    ensures Cleared(nets) == []
  {
    if nets != [] {
      assert Canonical(nets[|nets| - 1]);
      NothingCleared(nets[..|nets| - 1]);
    }
  }

  lemma SpecParts(codec: Codec, link: BypassLink)
    requires Faithful(codec) && link.bypass != []
    ensures SplitOnce(Spec(codec, link), '=') == Some((codec.show(link.anchor), Join(Printed(codec, link.bypass), ',')))
    ensures Split(Join(Printed(codec, link.bypass), ','), ',') == Printed(codec, link.bypass)
  {
    assert Plain(codec.show(link.anchor));
    SplitOnceAt(codec.show(link.anchor), '=', Join(Printed(codec, link.bypass), ','));
    forall i | 0 <= i < |link.bypass|
      ensures ',' !in Printed(codec, link.bypass)[i]
    {
      assert Plain(codec.show(link.bypass[i]));
    }
    SplitOfJoin(Printed(codec, link.bypass), ',');
  }

  /** A printed link parses to its canonical form; the host bits reported are exactly those that were set. */
  lemma ParseOfSpec(codec: Codec, link: BypassLink)
    requires Faithful(codec) && link.bypass != []
    ensures Denotes(codec, Spec(codec, link)) == Link(Canon(link), Cleared([link.anchor] + link.bypass))
  {
    SpecParts(codec, link);
    assert Plain(codec.show(link.anchor));
    TrimPlain(codec.show(link.anchor));
    PrintedParse(codec, link.bypass);
  }

  /** A link without prefixes has no readable print. */
  lemma EmptySpecRefused(codec: Codec, link: BypassLink)
    requires Faithful(codec) && link.bypass == []
    ensures Denotes(codec, Spec(codec, link)) == Syntax
  {
    assert Plain(codec.show(link.anchor));
    SplitOnceAt(codec.show(link.anchor), '=', []);
    TrimPlain(codec.show(link.anchor));
    var values: seq<string> := Split([], ',');
    assert values == [[]] && values[..0] == [] && Blank(values[0]);
    assert GivenNets(codec, values) == Nets([]);
  }

  /** A link comes back as it was, with nothing cleared, exactly if it is canonical and has a prefix. */
  lemma RoundTrip(codec: Codec, link: BypassLink)
    requires Faithful(codec)
    ensures Denotes(codec, Spec(codec, link)) == Link(link, []) <==> IsCanonical(link) && link.bypass != []
  {
    hide Denotes, Spec;
    if link.bypass == [] {
      EmptySpecRefused(codec, link);
    } else {
      ParseOfSpec(codec, link);
      CanonIsCanonical(link);
      if IsCanonical(link) {
        CanonFixesCanonical(link);
        NothingCleared([link.anchor] + link.bypass);
      }
    }
  }

  /** Whatever the spec, a parsed link is canonical and not empty. */
  lemma ParsedIsCanonical(codec: Codec, spec: string)
    ensures Denotes(codec, spec).Link? ==>
      IsCanonical(Denotes(codec, spec).link) && Denotes(codec, spec).link.bypass != []
  {
    if Denotes(codec, spec).Link? {
      var (anchorText, prefixes) := SplitOnce(spec, '=').value;
      var link := BypassLink(codec.parse(Trim(anchorText)).value, GivenNets(codec, Split(prefixes, ',')).nets);
      CanonIsCanonical(link);
      assert Truncs(link.bypass)[0] in Canon(link).bypass;
    }
  }

  /** Printing what was parsed and parsing it again changes nothing: spec and link are normal forms of each other. */
  lemma ReparseStable(codec: Codec, spec: string)
    requires Faithful(codec) && Denotes(codec, spec).Link?
    ensures Denotes(codec, spec).link.bypass != []
    ensures Denotes(codec, Spec(codec, Denotes(codec, spec).link)) == Link(Denotes(codec, spec).link, [])
  {
    ParsedIsCanonical(codec, spec);
    RoundTrip(codec, Denotes(codec, spec).link);
  }

  // ---- any text ---------------------------------------------------------------------------------------

  /** A value that is nothing but white space, or parses once that is taken off its ends. */
  predicate Usable(codec: Codec, value: string) {
    Spaces(value) || codec.parse(Trim(value)).Some?
  }

  lemma BlankIsSpaces(value: string)
    ensures Blank(value) <==> Spaces(value)
  {
    hide IsSpace, Trim;
    var a, b := TrimParts(value);
    if Spaces(value) {
      TrimPadding(value, [], []);
      assert value + [] + [] == value;
      assert Trim([]) == [] by { TrimNothing(); }
    }
    if Blank(value) {
      assert value == a + b;
      SpacesTogether(a, b);
    }
  }

  lemma TrimNothing()
    ensures Trim([]) == []
  {
  }

  lemma SpacesTogether(a: string, b: string)
    requires Spaces(a) && Spaces(b)
    ensures Spaces(a + b)
  {
    hide IsSpace;
  }

  /** The first value that is neither blank nor a CIDR is the one that is reported; without one, none is. */
  lemma {:induction false} FirstUnusable(codec: Codec, values: seq<string>)
    ensures GivenNets(codec, values).Nets? <==> forall i :: 0 <= i < |values| ==> Usable(codec, values[i])
    ensures GivenNets(codec, values).Unparsable? ==>
      exists i ::
        && 0 <= i < |values| && !Usable(codec, values[i]) && GivenNets(codec, values).value == Trim(values[i])
        && forall j :: 0 <= j < i ==> Usable(codec, values[j])
  {
    hide Usable, Trim, Blank;
    if values != [] {
      var init, last := values[..|values| - 1], values[|values| - 1];
      FirstUnusable(codec, init);
      LastUsable(codec, last);
      if GivenNets(codec, init).Unparsable? {
        var i :| 0 <= i < |init| && !Usable(codec, init[i]) && GivenNets(codec, init).value == Trim(init[i])
                 && forall j :: 0 <= j < i ==> Usable(codec, init[j]);
        assert values[i] == init[i];
      } else if !Usable(codec, last) {
        assert values[|init|] == last && forall j :: 0 <= j < |init| ==> values[j] == init[j];
      }
    }
  }

  lemma LastUsable(codec: Codec, value: string)
    ensures Usable(codec, value) <==> Blank(value) || codec.parse(Trim(value)).Some?
  {
    hide Trim, Blank, Spaces;
    BlankIsSpaces(value);
  }

  /** How many of the first `n` values are not blank. */
  function Filled(values: seq<string>, n: nat): nat
    requires n <= |values|
  {
    if n == 0 then 0 else Filled(values, n - 1) + if Spaces(values[n - 1]) then 0 else 1
  }

  lemma {:induction false} FilledSame(a: seq<string>, b: seq<string>, n: nat)
    requires n <= |a| && n <= |b| && a[..n] == b[..n]
    ensures Filled(a, n) == Filled(b, n) <= n
  {
    hide Spaces;
    if n > 0 {
      assert a[..n - 1] == a[..n][..n - 1] == b[..n][..n - 1] == b[..n - 1];
      assert a[n - 1] == a[..n][n - 1] == b[..n][n - 1] == b[n - 1];
      FilledSame(a, b, n - 1);
    }
  }

  /** A value that is not blank is read, and its CIDR has its place in the list. */
  predicate Read(codec: Codec, values: seq<string>, nets: seq<Net>, i: nat)
    requires i < |values|
  {
    Spaces(values[i])
    || (Filled(values, i) < |nets| && codec.parse(Trim(values[i])) == Some(nets[Filled(values, i)]))
  }

  /** One more value leaves the others in their places. */
  lemma ReadStays(codec: Codec, values: seq<string>, nets: seq<Net>, nets': seq<Net>, i: nat)
    requires i < |values| - 1 && Read(codec, values[..|values| - 1], nets, i) && nets <= nets'
    ensures Read(codec, values, nets', i)
  {
    hide Trim, Spaces, Filled;
    var init := values[..|values| - 1];
    assert init[..i] == values[..i] && init[i] == values[i];
    FilledSame(init, values, i);
  }

  /** The CIDRs are those of the values that are not blank, in order. */
  lemma {:induction false} GivenInOrder(codec: Codec, values: seq<string>)
    requires GivenNets(codec, values).Nets?
    ensures |GivenNets(codec, values).nets| == Filled(values, |values|)
    ensures forall i :: 0 <= i < |values| ==> Read(codec, values, GivenNets(codec, values).nets, i)
  {
    hide Trim, Blank, Spaces, Read;
    if values != [] {
      var init, n := values[..|values| - 1], |values| - 1;
      GivenInOrder(codec, init);
      BlankIsSpaces(values[n]);
      assert init[..n] == values[..n];
      FilledSame(init, values, n);
      forall i | 0 <= i < n
        ensures Read(codec, values, GivenNets(codec, values).nets, i)
      {
        ReadStays(codec, values, GivenNets(codec, init).nets, GivenNets(codec, values).nets, i);
      }
      LastRead(codec, values);
    }
  }

  lemma LastRead(codec: Codec, values: seq<string>)
    requires values != [] && GivenNets(codec, values).Nets?
    requires |GivenNets(codec, values[..|values| - 1]).nets| == Filled(values, |values| - 1)
    ensures Read(codec, values, GivenNets(codec, values).nets, |values| - 1)
  {
    hide Trim, Blank, Spaces;
    BlankIsSpaces(values[|values| - 1]);
  }

  /** An anchor, an equals sign, and nothing but white space between the commas behind it. */
  predicate BareAnchor(codec: Codec, spec: string, anchor: string, prefixes: string) {
    && '=' !in anchor && spec == anchor + ['='] + prefixes && codec.parse(Trim(anchor)).Some?
    && forall i :: 0 <= i < |Split(prefixes, ',')| ==> Spaces(Split(prefixes, ',')[i])
  }

  /** A spec is refused for its syntax exactly if it has no equals sign, or an anchor and nothing behind it. */
  lemma SyntaxExactly(codec: Codec, spec: string)
    ensures Denotes(codec, spec).Syntax? <==>
      '=' !in spec || exists anchor, prefixes :: BareAnchor(codec, spec, anchor, prefixes)
  {
    hide Trim, Split, GivenNets, Spaces, Canon, Cleared;
    if anchor, prefixes :| BareAnchor(codec, spec, anchor, prefixes) {
      SplitOnceAt(anchor, '=', prefixes);
      NothingGiven(codec, Split(prefixes, ','));
    }
    var parts := SplitOnce(spec, '=');
    if parts.Some? && Denotes(codec, spec).Syntax? {
      var anchor, prefixes := parts.value.0, parts.value.1;
      NothingGiven(codec, Split(prefixes, ','));
      assert BareAnchor(codec, spec, anchor, prefixes);
    }
  }

  lemma NothingGiven(codec: Codec, values: seq<string>)
    ensures GivenNets(codec, values) == Nets([]) <==> forall i :: 0 <= i < |values| ==> Spaces(values[i])
  {
    hide Trim, Spaces, GivenNets;
    if GivenNets(codec, values).Nets? {
      GivenInOrder(codec, values);
      if GivenNets(codec, values).nets == [] {
        NoneFilled(values, |values|);
      } else {
        SomeFilled(values, |values|);
      }
    } else {
      FirstUnusable(codec, values);
    }
  }

  lemma {:induction false} NoneFilled(values: seq<string>, n: nat)
    requires n <= |values| && Filled(values, n) == 0
    ensures forall i :: 0 <= i < n ==> Spaces(values[i])
  {
    hide Spaces;
    if n > 0 {
      NoneFilled(values, n - 1);
    }
  }

  lemma {:induction false} SomeFilled(values: seq<string>, n: nat)
    requires n <= |values| && Filled(values, n) > 0
    ensures exists i :: 0 <= i < n && !Spaces(values[i])
  {
    hide Spaces;
    if Filled(values, n - 1) > 0 {
      SomeFilled(values, n - 1);
    }
  }
}
