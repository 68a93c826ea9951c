/** `merge_links` of src/bypass_links.rs, the fold behind `connection config --add-link`. */
module MergeLinks {
  import opened Cidr
  import opened BypassLinks

  /** The first index whose link has this anchor, or the length when there is none. */
  function IndexOfAnchor(links: seq<BypassLink>, anchor: Net): (r: nat)
    ensures r <= |links|
    ensures r < |links| ==> links[r].anchor == anchor
    ensures forall i :: 0 <= i < r ==> links[i].anchor != anchor
  {
    if links == [] || links[0].anchor == anchor then 0 else 1 + IndexOfAnchor(links[1..], anchor)
  }

  function Fold(merged: seq<BypassLink>, link: BypassLink): seq<BypassLink> {
    var i := IndexOfAnchor(merged, link.anchor);
    if i < |merged| then
      merged[i := BypassLink(merged[i].anchor, AddMissing(merged[i].bypass, link.bypass))]
    else
      merged + [link]
  }

  function FoldAll(merged: seq<BypassLink>, added: seq<BypassLink>): seq<BypassLink> {
    if added == [] then merged else Fold(FoldAll(merged, added[..|added| - 1]), added[|added| - 1])
  }

  function Merge(stored: seq<BypassLink>, added: seq<BypassLink>): seq<BypassLink> {
    FoldAll(CanonAll(stored), CanonAll(added))
  }

  method AppendMissing(known: seq<Net>, prefixes: seq<Net>) returns (r: seq<Net>)
    ensures r == AddMissing(known, prefixes)
  {
    r := known;
    for i := 0 to |prefixes|
      invariant r == AddMissing(known, prefixes[..i])
    {
      assert prefixes[..i + 1][..i] == prefixes[..i];
      if prefixes[i] !in r {
        r := r + [prefixes[i]];
      }
    }
    assert prefixes[..|prefixes|] == prefixes;
  }

  method MergeLinks(stored: seq<BypassLink>, added: seq<BypassLink>) returns (merged: seq<BypassLink>)
    ensures merged == Merge(stored, added)
  {
    merged := CanonAll(stored);
    ghost var links := CanonAll(added);
    for i := 0 to |added|
      invariant merged == FoldAll(CanonAll(stored), links[..i])
    {
      assert links[..i + 1][..i] == links[..i];
      var link := CanonicalLink(added[i]);
      var at := IndexOfAnchor(merged, link.anchor);
      if at < |merged| {
        var prefixes := AppendMissing(merged[at].bypass, link.bypass);
        merged := merged[at := BypassLink(merged[at].anchor, prefixes)];
      } else {
        merged := merged + [link];
      }
    }
    assert links[..|added|] == links;
  }

  // ---- laws -------------------------------------------------------------------------

  ghost predicate AllCanonical(links: seq<BypassLink>) {
    forall i :: 0 <= i < |links| ==> IsCanonical(links[i])
  }

  lemma FoldCanonical(merged: seq<BypassLink>, link: BypassLink)
    requires AllCanonical(merged) && IsCanonical(link)
    ensures AllCanonical(Fold(merged, link))
  {
    var i := IndexOfAnchor(merged, link.anchor);
    if i < |merged| {
      AddMissingNoDuplicates(merged[i].bypass, link.bypass);
    }
  }

  lemma {:induction false} FoldAllCanonical(merged: seq<BypassLink>, added: seq<BypassLink>)
    requires AllCanonical(merged) && AllCanonical(added)
    ensures AllCanonical(FoldAll(merged, added))
  {
    if added != [] {
      FoldAllCanonical(merged, added[..|added| - 1]);
      FoldCanonical(FoldAll(merged, added[..|added| - 1]), added[|added| - 1]);
    }
  }

  lemma CanonicalInputs(links: seq<BypassLink>)
    ensures AllCanonical(CanonAll(links))
  {
    CanonAllCanonical(links);
  }

  lemma {:induction false} FoldAllAppend(merged: seq<BypassLink>, a: seq<BypassLink>, b: seq<BypassLink>)
    ensures FoldAll(merged, a + b) == FoldAll(FoldAll(merged, a), b)
  {
    if b == [] {
      assert a + b == a;
    } else {
      assert (a + b)[..|a + b| - 1] == a + b[..|b| - 1];
      FoldAllAppend(merged, a, b[..|b| - 1]);
    }
  }

  lemma MergeIsCanonical(stored: seq<BypassLink>, added: seq<BypassLink>)
    ensures CanonAll(Merge(stored, added)) == Merge(stored, added)
  {
    CanonicalInputs(stored);
    CanonicalInputs(added);
    FoldAllCanonical(CanonAll(stored), CanonAll(added));
    CanonAllFixes(Merge(stored, added));
  }

  /** Adding in two requests is adding in one. */
  lemma MergeComposes(stored: seq<BypassLink>, a: seq<BypassLink>, b: seq<BypassLink>)
    ensures Merge(Merge(stored, a), b) == Merge(stored, a + b)
  {
    MergeIsCanonical(stored, a);
    assert CanonAll(a + b) == CanonAll(a) + CanonAll(b);
    FoldAllAppend(CanonAll(stored), CanonAll(a), CanonAll(b));
  }

  /** `link` adds nothing: the first link of its anchor has all of its prefixes. */
  ghost predicate Absorbed(merged: seq<BypassLink>, link: BypassLink) {
    var i := IndexOfAnchor(merged, link.anchor);
    i < |merged| && forall p :: p in link.bypass ==> p in merged[i].bypass
  }

  lemma IndexOfAnchorUnique(links: seq<BypassLink>, anchor: Net, i: nat)
    requires i < |links| && links[i].anchor == anchor
    requires forall j :: 0 <= j < i ==> links[j].anchor != anchor
    ensures IndexOfAnchor(links, anchor) == i
  {
  }

  lemma FoldKeepsAbsorbed(merged: seq<BypassLink>, link: BypassLink, other: BypassLink)
    ensures Absorbed(Fold(merged, link), link)
    ensures Absorbed(merged, other) ==> Absorbed(Fold(merged, link), other)
  {
    var i := IndexOfAnchor(merged, link.anchor);
    IndexOfAnchorUnique(Fold(merged, link), link.anchor, i);
    if Absorbed(merged, other) {
      var j := IndexOfAnchor(merged, other.anchor);
      IndexOfAnchorUnique(Fold(merged, link), other.anchor, j);
    }
  }

  lemma {:induction false} FoldAllAbsorbs(merged: seq<BypassLink>, added: seq<BypassLink>)
    ensures forall i :: 0 <= i < |added| ==> Absorbed(FoldAll(merged, added), added[i])
  {
    hide Absorbed, Fold;
    if added != [] {
      var before, last := FoldAll(merged, added[..|added| - 1]), added[|added| - 1];
      FoldAllAbsorbs(merged, added[..|added| - 1]);
      forall i | 0 <= i < |added|
        ensures Absorbed(FoldAll(merged, added), added[i])
      {
        FoldKeepsAbsorbed(before, last, added[i]);
      }
    }
  }

  lemma {:induction false} FoldAllOfAbsorbed(merged: seq<BypassLink>, added: seq<BypassLink>)
    requires forall i :: 0 <= i < |added| ==> Absorbed(merged, added[i])
    ensures FoldAll(merged, added) == merged
  {
    if added != [] {
      var last := added[|added| - 1];
      FoldAllOfAbsorbed(merged, added[..|added| - 1]);
      assert Absorbed(merged, last);
      AddMissingNothing(merged[IndexOfAnchor(merged, last.anchor)].bypass, last.bypass);
    }
  }

  /** Repeating a request changes nothing. */
  lemma MergeIdempotent(stored: seq<BypassLink>, added: seq<BypassLink>)
    ensures Merge(Merge(stored, added), added) == Merge(stored, added)
  {
    MergeIsCanonical(stored, added);
    FoldAllAbsorbs(CanonAll(stored), CanonAll(added));
    FoldAllOfAbsorbed(Merge(stored, added), CanonAll(added));
  }

  ghost predicate Has(links: seq<BypassLink>, anchor: Net, prefix: Net) {
    exists i :: 0 <= i < |links| && links[i].anchor == anchor && prefix in links[i].bypass
  }

  lemma FoldHas(merged: seq<BypassLink>, link: BypassLink, anchor: Net, prefix: Net)
    ensures Has(Fold(merged, link), anchor, prefix) <==>
      Has(merged, anchor, prefix) || (link.anchor == anchor && prefix in link.bypass)
  {
    var i, out := IndexOfAnchor(merged, link.anchor), Fold(merged, link);
    assert i < |out| && out[i].anchor == link.anchor && forall p :: p in link.bypass ==> p in out[i].bypass;
    forall j | 0 <= j < |merged| && merged[j].anchor == anchor && prefix in merged[j].bypass
      ensures out[j].anchor == anchor && prefix in out[j].bypass
    {
    }
  }

  lemma {:induction false} FoldAllHas(merged: seq<BypassLink>, added: seq<BypassLink>, anchor: Net, prefix: Net)
    ensures Has(FoldAll(merged, added), anchor, prefix) <==> Has(merged, anchor, prefix) || Has(added, anchor, prefix)
  {
    if added != [] {
      var init, last := added[..|added| - 1], added[|added| - 1];
      FoldAllHas(merged, init, anchor, prefix);
      FoldHas(FoldAll(merged, init), last, anchor, prefix);
      assert added == init + [last];
      assert Has(init, anchor, prefix) ==> Has(added, anchor, prefix);
    }
  }

  /** Each anchor ends up with the union of its prefixes, no more and no less. */
  lemma MergeIsUnion(stored: seq<BypassLink>, added: seq<BypassLink>, anchor: Net, prefix: Net)
    ensures Has(Merge(stored, added), anchor, prefix)
       <==> Has(CanonAll(stored), anchor, prefix) || Has(CanonAll(added), anchor, prefix)
  {
    FoldAllHas(CanonAll(stored), CanonAll(added), anchor, prefix);
  }
}
