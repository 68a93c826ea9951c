/**
  `apply_mtu_override_to_conf_text` (src/privileged/dispatch.rs): the text of a
  configuration with the MTU of its [Interface] section replaced, or inserted
  where there is none.
 */
module MtuOverride {
  import opened Wrappers
  import opened Text

  // ---- lines ----------------------------------------------------------------------------------

  function StripCr(line: string): string {
    if line != [] && line[|line| - 1] == '\r' then line[..|line| - 1] else line
  }

  function Strip(lines: seq<string>): (r: seq<string>)
    ensures |r| == |lines| && forall i :: 0 <= i < |r| ==> r[i] == StripCr(lines[i])
  {
    seq(|lines|, i requires 0 <= i < |lines| => StripCr(lines[i]))
  }

  predicate NoNewline(lines: seq<string>) {
    forall i :: 0 <= i < |lines| ==> '\n' !in lines[i]
  }

  /** `str::lines`: one carriage return goes with each line feed; a last line without a line feed stays as it is. */
  function Lines(text: string): (r: seq<string>)
    ensures NoNewline(r)
    decreases |text|
  {
    if text == [] then [] else
    match SplitOnce(text, '\n')
    case None => [text]
    case Some((line, rest)) => [StripCr(line)] + Lines(rest)
  }

  /** Every line followed by a line feed. */
  function Unlines(lines: seq<string>): string {
    if lines == [] then [] else Unlines(lines[..|lines| - 1]) + lines[|lines| - 1] + ['\n']
  }

  lemma {:induction false} UnlinesFront(line: string, lines: seq<string>)
    ensures Unlines([line] + lines) == line + ['\n'] + Unlines(lines)
  {
    if lines == [] {
      assert ([line] + lines)[..0] == [];
    } else {
      assert ([line] + lines)[..|lines|] == [line] + lines[..|lines| - 1];
      UnlinesFront(line, lines[..|lines| - 1]);
    }
  }

  lemma UnlinesNothing()
    ensures Unlines([]) == []
  {
  }

  /** Reading back what was written takes one carriage return off every line. */
  lemma {:induction false} LinesOfUnlines(lines: seq<string>)
    requires NoNewline(lines)
    ensures Lines(Unlines(lines)) == Strip(lines)
  {
    hide StripCr, Unlines;
    if lines == [] {
      assert Unlines(lines) == [] by { UnlinesNothing(); }
    } else {
      var rest := lines[1..];
      assert lines == [lines[0]] + rest;
      UnlinesFront(lines[0], rest);
      SplitOnceAt(lines[0], '\n', Unlines(rest));
      LinesOfUnlines(rest);
    }
  }

  lemma {:induction false} UnlinesInjective(a: seq<string>, b: seq<string>)
    requires NoNewline(a) && NoNewline(b) && Unlines(a) == Unlines(b)
    ensures a == b
  {
    if a == [] || b == [] {
      assert a == b;
    } else {
      assert a == [a[0]] + a[1..] && b == [b[0]] + b[1..];
      UnlinesFront(a[0], a[1..]);
      UnlinesFront(b[0], b[1..]);
      SplitOnceAt(a[0], '\n', Unlines(a[1..]));
      SplitOnceAt(b[0], '\n', Unlines(b[1..]));
      UnlinesInjective(a[1..], b[1..]);
    }
  }

  // ---- what a line is ------------------------------------------------------------------------------

  datatype Kind = Header(interface: bool) | MtuKey | Other

  function KindOf(line: string): Kind {
    var trimmed := Trim(line);
    if trimmed != [] && trimmed[0] == '[' then Header(EqIgnoreCase(trimmed, "[interface]"))
    else match SplitOnce(trimmed, '=')
      case None => Other
      case Some((key, _)) => if EqIgnoreCase(Trim(key), "mtu") then MtuKey else Other
  }

  lemma StripKeepsKind(line: string)
    ensures KindOf(StripCr(line)) == KindOf(line)
  {
    if line != [] && line[|line| - 1] == '\r' {
      assert line == line[..|line| - 1] + ['\r'];
      TrimSpaceAfter(line[..|line| - 1], '\r');
    }
  }

  /** Whether the line after these belongs to an [Interface] section. */
  predicate InInterface(lines: seq<string>) {
    lines != [] &&
    match KindOf(lines[|lines| - 1])
    case Header(interface) => interface
    case _ => InInterface(lines[..|lines| - 1])
  }

  predicate IsMtu(lines: seq<string>, i: nat)
    requires i < |lines|
  {
    KindOf(lines[i]).MtuKey? && InInterface(lines[..i])
  }

  predicate Found(lines: seq<string>) {
    exists i :: 0 <= i < |lines| && IsMtu(lines, i)
  }

  predicate IsHeader(line: string) {
    KindOf(line) == Header(true)
  }

  /** Position of the first [Interface] header. */
  function FirstHeader(lines: seq<string>): (r: nat)
    ensures r <= |lines|
    ensures r < |lines| ==> IsHeader(lines[r])
    ensures forall i :: 0 <= i < r ==> !IsHeader(lines[i])
  {
    if lines == [] then 0 else
    var r := FirstHeader(lines[..|lines| - 1]);
    if r < |lines| - 1 || IsHeader(lines[|lines| - 1]) then r else r + 1
  }

  function MtuLine(m: nat): string {
    "MTU = " + Decimal(m)
  }

  // ---- the rewrite --------------------------------------------------------------------------------------

  function Replace(lines: seq<string>, m: nat): (r: seq<string>)
    ensures |r| == |lines|
    ensures forall i :: 0 <= i < |r| ==> r[i] == if IsMtu(lines, i) then MtuLine(m) else lines[i]
  {
    seq(|lines|, i requires 0 <= i < |lines| => if IsMtu(lines, i) then MtuLine(m) else lines[i])
  }

  /** `x` put behind position `h`. */
  function PutAfter(s: seq<string>, h: nat, x: string): (r: seq<string>)
    requires h < |s|
    ensures |r| == |s| + 1
    ensures forall k :: 0 <= k < |r| ==> r[k] == if k <= h then s[k] else if k == h + 1 then x else s[k - 1]
  {
    s[..h + 1] + [x] + s[h + 1..]
  }

  lemma PutAfterSlices(s: seq<string>, h: nat, x: string, i: nat)
    requires h < |s| && i <= |s| + 1
    ensures i <= h + 1 ==> PutAfter(s, h, x)[..i] == s[..i]
    ensures h + 1 < i ==>
      && PutAfter(s, h, x)[..i] == s[..h + 1] + [x] + s[h + 1..i - 1]
      && s[..i - 1] == s[..h + 1] + s[h + 1..i - 1]
  {
  }

  function InsertLine(lines: seq<string>, m: nat): seq<string> {
    var h := FirstHeader(lines);
    if h < |lines| then PutAfter(lines, h, MtuLine(m)) else lines
  }

  function ApplyLines(lines: seq<string>, m: nat): seq<string> {
    if Found(lines) then Replace(lines, m) else InsertLine(Strip(lines), m)
  }

  function Apply(text: string, m: nat): string {
    Unlines(ApplyLines(Lines(text), m))
  }

  lemma ReplaceSnoc(lines: seq<string>, i: nat, m: nat)
    requires i < |lines|
    ensures Replace(lines[..i + 1], m) == Replace(lines[..i], m) + [if IsMtu(lines, i) then MtuLine(m) else lines[i]]
  {
    var shorter, longer := lines[..i], lines[..i + 1];
    forall k | 0 <= k <= i
      ensures longer[..k] == lines[..k] && (k < i ==> shorter[..k] == lines[..k])
    {
    }
  }

  lemma UnlinesSnoc(lines: seq<string>, line: string)
    ensures Unlines(lines + [line]) == Unlines(lines) + line + ['\n']
  {
    assert (lines + [line])[..|lines|] == lines;
  }

  lemma NextLine(lines: seq<string>, i: nat)
    requires i < |lines|
    ensures IsMtu(lines, i) <==> KindOf(lines[i]).MtuKey? && InInterface(lines[..i])
    ensures InInterface(lines[..i + 1]) <==> if KindOf(lines[i]).Header? then KindOf(lines[i]).interface
      else InInterface(lines[..i])
  {
    hide KindOf;
    assert lines[..i + 1][..i] == lines[..i];
  }

  /** The first loop of the source: copy the lines, replacing the directive where it stands. */
  method ReplaceLoop(lines: seq<string>, m: nat) returns (out: string, found: bool)
    ensures out == Unlines(Replace(lines, m)) && found == Found(lines)
  {
    hide Unlines, Replace, MtuLine, KindOf, IsMtu, InInterface;
    var inInterface := false;
    found := false;
    out := [];
    ReplaceNothing(lines, m);
    for i := 0 to |lines|
      invariant inInterface == InInterface(lines[..i])
      invariant found == exists k :: 0 <= k < i && IsMtu(lines, k)
      invariant out == Unlines(Replace(lines[..i], m))
    {
      ReplaceSnoc(lines, i, m);
      NextLine(lines, i);
      var kind := KindOf(lines[i]);
      var line := lines[i];
      if kind.Header? {
        inInterface := kind.interface;
      } else if inInterface && kind.MtuKey? {
        line := MtuLine(m);
        found := true;
      }
      UnlinesSnoc(Replace(lines[..i], m), line);
      out := out + line + ['\n'];
    }
    assert lines[..|lines|] == lines;
  }

  lemma ReplaceNothing(lines: seq<string>, m: nat)
    ensures Replace(lines[..0], m) == [] && Unlines([]) == [] && !InInterface(lines[..0])
  {
  }

  /** The second loop: copy the lines, with the directive after the first [Interface] header. */
  method InsertLoop(lines: seq<string>, m: nat) returns (result: string)
    ensures result == Unlines(InsertLine(lines, m))
  {
    hide Unlines, MtuLine, KindOf;
    result := [];
    var inserted := false;
    ReplaceNothing(lines, m);
    ghost var h := FirstHeader(lines);
    ghost var done: seq<string> := [];
    for i := 0 to |lines|
      invariant inserted == (h < i)
      invariant done == if h < i then lines[..h + 1] + [MtuLine(m)] + lines[h + 1..i] else lines[..i]
      invariant result == Unlines(done)
    {
      UnlinesSnoc(done, lines[i]);
      result := result + lines[i] + ['\n'];
      done := done + [lines[i]];
      if !inserted && IsHeader(lines[i]) {
        UnlinesSnoc(done, MtuLine(m));
        result := result + MtuLine(m) + ['\n'];
        done := done + [MtuLine(m)];
        inserted := true;
      }
    }
    assert lines[..|lines|] == lines && (h < |lines| ==> lines[h + 1..|lines|] == lines[h + 1..]);
  }

  method ApplyMtuOverride(text: string, m: nat) returns (r: string)
    ensures r == Apply(text, m)
  {
    hide Unlines, Lines, Found, InsertLine;
    var out, found := ReplaceLoop(Lines(text), m);
    if found {
      return out;
    }
    NothingReplaced(Lines(text), m);
    LinesOfUnlines(Lines(text));
    r := InsertLoop(Lines(out), m);
  }

  lemma NothingReplaced(lines: seq<string>, m: nat)
    requires !Found(lines)
    ensures Replace(lines, m) == lines
  {
  }

  // ---- sections and directives survive the rewrite ---------------------------------------------------------

  lemma MtuLineKind(m: nat)
    ensures KindOf(MtuLine(m)).MtuKey?
  {
    hide IsSpace, Decimal;
    var line, value := MtuLine(m), " " + Decimal(m);
    MtuLineTrimmed(m);
    assert line == "MTU " + ['='] + value;
    SplitOnceAt("MTU ", '=', value);
    MtuKeyTrimmed();
    assert EqIgnoreCase("MTU", "mtu");
  }

  lemma MtuKeyTrimmed()
    ensures Trim("MTU ") == "MTU"
  {
    assert "MTU " == "MTU" + [' '];
    TrimSpaceAfter("MTU", ' ');
    TrimPlain("MTU");
  }

  /** The last character is a digit. */
  lemma MtuLineEnds(m: nat)
    ensures var line := MtuLine(m); |line| > 6 && '0' <= line[|line| - 1] <= '9' && line[0] == 'M'
  {
    var digits := Decimal(m);
    assert MtuLine(m)[|MtuLine(m)| - 1] == digits[|digits| - 1];
  }

  lemma MtuLineTrimmed(m: nat)
    ensures Trim(MtuLine(m)) == MtuLine(m)
  {
    hide MtuLine;
    MtuLineEnds(m);
  }

  lemma MtuLineFacts(m: nat)
    ensures KindOf(MtuLine(m)).MtuKey? && StripCr(MtuLine(m)) == MtuLine(m) && '\n' !in MtuLine(m)
  {
    hide KindOf;
    MtuLineKind(m);
    MtuLineEnds(m);
    forall i | 0 <= i < |MtuLine(m)|
      ensures MtuLine(m)[i] != '\n'
    {
      assert i >= 6 ==> MtuLine(m)[i] == Decimal(m)[i - 6];
    }
  }

  ghost predicate SameKinds(a: seq<string>, b: seq<string>) {
    |a| == |b| && forall i :: 0 <= i < |a| ==> KindOf(a[i]) == KindOf(b[i])
  }

  lemma {:induction false} SameSections(a: seq<string>, b: seq<string>, i: nat)
    requires SameKinds(a, b) && i <= |a|
    ensures InInterface(a[..i]) == InInterface(b[..i])
    ensures i < |a| ==> IsMtu(a, i) == IsMtu(b, i)
  {
    hide KindOf;
    if i > 0 {
      SameSections(a, b, i - 1);
      assert a[..i][..i - 1] == a[..i - 1] && b[..i][..i - 1] == b[..i - 1];
    }
  }

  lemma SameDirectives(a: seq<string>, b: seq<string>)
    requires SameKinds(a, b)
    ensures forall i :: 0 <= i < |a| ==> IsMtu(a, i) == IsMtu(b, i)
    ensures Found(a) == Found(b)
  {
    hide IsMtu, SameKinds;
    assert |a| == |b| by { SameLength(a, b); }
    forall i | 0 <= i < |a|
      ensures IsMtu(a, i) == IsMtu(b, i)
    {
      SameSections(a, b, i);
    }
  }

  lemma SameLength(a: seq<string>, b: seq<string>)
    requires SameKinds(a, b)
    ensures |a| == |b|
  {
  }

  lemma StripSameKinds(lines: seq<string>)
    ensures SameKinds(lines, Strip(lines))
  {
    hide KindOf, StripCr;
    forall i | 0 <= i < |lines|
      ensures KindOf(lines[i]) == KindOf(Strip(lines)[i])
    {
      StripKeepsKind(lines[i]);
    }
  }

  lemma ReplaceSameKinds(lines: seq<string>, m: nat)
    ensures SameKinds(lines, Replace(lines, m))
  {
    hide KindOf, MtuLine;
    MtuLineFacts(m);
  }

  /** Inserting a directive leaves the sections of the later lines as they were. */
  lemma {:induction false} InsertedSections(a: seq<string>, x: string, b: seq<string>)
    requires KindOf(x).MtuKey?
    ensures InInterface(a + [x] + b) == InInterface(a + b)
  {
    hide KindOf;
    if b == [] {
      assert (a + [x] + b)[..|a|] == a && a + b == a;
    } else {
      var init := b[..|b| - 1];
      InsertedSections(a, x, init);
      assert (a + [x] + b)[..|a| + |b|] == a + [x] + init;
      assert (a + b)[..|a| + |b| - 1] == a + init;
    }
  }

  lemma BeforeInserted(lines: seq<string>, h: nat, x: string, i: nat)
    requires i <= h < |lines|
    ensures IsMtu(PutAfter(lines, h, x), i) == IsMtu(lines, i)
  {
    hide KindOf, InInterface;
    PutAfterSlices(lines, h, x, i);
  }

  lemma AtInserted(lines: seq<string>, h: nat, x: string)
    requires h < |lines| && IsHeader(lines[h]) && KindOf(x).MtuKey?
    ensures IsMtu(PutAfter(lines, h, x), h + 1)
  {
    hide KindOf, PutAfter;
    PutAfterSlices(lines, h, x, h + 1);
  }

  lemma AfterInserted(lines: seq<string>, h: nat, x: string, i: nat)
    requires h < |lines| && h + 1 < i <= |lines| && KindOf(x).MtuKey?
    ensures IsMtu(PutAfter(lines, h, x), i) == IsMtu(lines, i - 1)
  {
    hide KindOf, InInterface, PutAfter;
    PutAfterSlices(lines, h, x, i);
    InsertedSections(lines[..h + 1], x, lines[h + 1..i - 1]);
  }

  /** After an insertion the only directive is the inserted one. */
  lemma InsertedDirectives(lines: seq<string>, m: nat, i: nat)
    requires !Found(lines) && FirstHeader(lines) < |lines| && i <= |lines|
    ensures IsMtu(InsertLine(lines, m), i) <==> i == FirstHeader(lines) + 1
  {
    hide IsMtu, MtuLine, KindOf;
    var h := FirstHeader(lines);
    assert InsertLine(lines, m) == PutAfter(lines, h, MtuLine(m));
    MtuLineFacts(m);
    if i <= h {
      BeforeInserted(lines, h, MtuLine(m), i);
      assert !IsMtu(lines, i);
    } else if i == h + 1 {
      AtInserted(lines, h, MtuLine(m));
    } else {
      AfterInserted(lines, h, MtuLine(m), i);
      assert !IsMtu(lines, i - 1);
    }
  }

  // ---- the other lines -----------------------------------------------------------------------------------------

  /** The lines that are no MTU directive of an [Interface] section. */
  function Others(lines: seq<string>): seq<string> {
    if lines == [] then [] else
    Others(lines[..|lines| - 1]) + (if IsMtu(lines, |lines| - 1) then [] else [lines[|lines| - 1]])
  }

  lemma PrefixDirectives(lines: seq<string>, n: nat, i: nat)
    requires i < n <= |lines|
    ensures IsMtu(lines[..n], i) == IsMtu(lines, i)
  {
    hide KindOf;
    assert lines[..n][..i] == lines[..i];
  }

  lemma {:induction false} OthersEqual(a: seq<string>, b: seq<string>, n: nat)
    requires |a| == |b| && n <= |a|
    requires forall i :: 0 <= i < |a| ==> IsMtu(a, i) == IsMtu(b, i) && (!IsMtu(a, i) ==> a[i] == b[i])
    ensures Others(a[..n]) == Others(b[..n])
  {
    hide IsMtu;
    if n > 0 {
      OthersEqual(a, b, n - 1);
      assert a[..n][..n - 1] == a[..n - 1] && b[..n][..n - 1] == b[..n - 1];
      PrefixDirectives(a, n, n - 1);
      PrefixDirectives(b, n, n - 1);
    }
  }

  lemma {:induction false} OthersAll(lines: seq<string>, n: nat)
    requires n <= |lines| && forall i :: 0 <= i < n ==> !IsMtu(lines, i)
    ensures Others(lines[..n]) == lines[..n]
  {
    hide IsMtu;
    if n > 0 {
      var init, last := lines[..n - 1], lines[n - 1];
      OthersAll(lines, n - 1);
      PrefixDirectives(lines, n, n - 1);
      assert lines[..n] == init + [last];
      assert (init + [last])[..n - 1] == init;
    }
  }

  /** From position `k` on, the others of the first list are the elements of the second, one place earlier. */
  lemma {:induction false} OthersAfter(lines: seq<string>, h: nat, n: nat)
    requires h < n <= |lines| && IsMtu(lines, h)
    requires forall i :: 0 <= i < |lines| && i != h ==> !IsMtu(lines, i)
    ensures Others(lines[..n]) == lines[..h] + lines[h + 1..n]
    decreases n
  {
    hide IsMtu;
    assert lines[..n][..n - 1] == lines[..n - 1];
    PrefixDirectives(lines, n, n - 1);
    if n == h + 1 {
      OthersAll(lines, h);
      assert lines[h + 1..n] == [];
    } else {
      OthersAfter(lines, h, n - 1);
      assert lines[h + 1..n] == lines[h + 1..n - 1] + [lines[n - 1]];
    }
  }

  /** The lines the rewrite works on: a missing directive makes it read its own output once more. */
  function Seen(lines: seq<string>): seq<string> {
    if Found(lines) then lines else Strip(lines)
  }

  lemma OthersOfPut(lines: seq<string>, h: nat, x: string)
    requires h < |lines| && OnlyDirective(PutAfter(lines, h, x), h + 1)
    ensures Others(PutAfter(lines, h, x)) == lines
  {
    hide IsMtu, Others;
    var out := PutAfter(lines, h, x);
    assert IsMtu(out, h + 1);
    OthersAfter(out, h + 1, |out|);
    assert out[..|out|] == out;
    assert out[..h + 1] == lines[..h + 1] && out[h + 2..] == lines[h + 1..];
  }

  lemma OthersOfInsert(lines: seq<string>, m: nat)
    requires !Found(lines)
    ensures Others(InsertLine(lines, m)) == Others(lines)
  {
    hide IsMtu, MtuLine, PutAfter, Others, OnlyDirective, FirstHeader;
    OthersAll(lines, |lines|);
    assert lines[..|lines|] == lines;
    if FirstHeader(lines) < |lines| {
      InsertedOnly(lines, m);
      OthersOfPut(lines, FirstHeader(lines), MtuLine(m));
    }
  }

  lemma OthersApply(lines: seq<string>, m: nat)
    ensures Others(ApplyLines(lines, m)) == Others(Seen(lines))
  {
    hide IsMtu, MtuLine, InsertLine, Others;
    if Found(lines) {
      var out := Replace(lines, m);
      ReplaceSameKinds(lines, m);
      SameDirectives(lines, out);
      OthersEqual(out, lines, |out|);
      assert out[..|out|] == out && lines[..|out|] == lines;
    } else {
      StripSameKinds(lines);
      SameDirectives(lines, Strip(lines));
      OthersOfInsert(Strip(lines), m);
    }
  }

  // ---- laws ---------------------------------------------------------------------------------------------------------

  /** No line but a directive ends with a carriage return. */
  ghost predicate Clean(lines: seq<string>) {
    forall i :: 0 <= i < |lines| && !IsMtu(lines, i) ==> StripCr(lines[i]) == lines[i]
  }

  lemma StripSnoc(init: seq<string>, last: string)
    ensures Strip(init + [last]) == init + [last] <==> Strip(init) == init && StripCr(last) == last
  {
    hide StripCr;
    var all := init + [last];
    assert Strip(all) == Strip(init) + [StripCr(last)];
    assert all[..|init|] == init && Strip(all)[..|init|] == Strip(init);
    assert all[|init|] == last && Strip(all)[|init|] == StripCr(last);
  }

  lemma {:induction false} CleanPrefix(lines: seq<string>, n: nat)
    requires n <= |lines|
    ensures Strip(Others(lines[..n])) == Others(lines[..n])
       <==> forall i :: 0 <= i < n && !IsMtu(lines, i) ==> StripCr(lines[i]) == lines[i]
  {
    hide IsMtu, StripCr, Strip;
    if n > 0 {
      CleanPrefix(lines, n - 1);
      assert lines[..n][..n - 1] == lines[..n - 1];
      PrefixDirectives(lines, n, n - 1);
      StripSnoc(Others(lines[..n - 1]), lines[n - 1]);
      assert Others(lines[..n - 1]) + [] == Others(lines[..n - 1]);
      assert (forall i :: 0 <= i < n && !IsMtu(lines, i) ==> StripCr(lines[i]) == lines[i]) <==>
             (forall i :: 0 <= i < n - 1 && !IsMtu(lines, i) ==> StripCr(lines[i]) == lines[i])
             && (!IsMtu(lines, n - 1) ==> StripCr(lines[n - 1]) == lines[n - 1]);
    }
  }

  lemma CleanByOthers(lines: seq<string>)
    ensures Clean(lines) <==> Strip(Others(lines)) == Others(lines)
  {
    hide IsMtu, StripCr, Others;
    CleanPrefix(lines, |lines|);
    assert lines[..|lines|] == lines;
  }

  /** `h` is the only directive among these lines. */
  ghost predicate OnlyDirective(lines: seq<string>, h: nat) {
    forall i :: 0 <= i < |lines| ==> (IsMtu(lines, i) <==> i == h)
  }

  lemma InsertedOnly(lines: seq<string>, m: nat)
    requires !Found(lines) && FirstHeader(lines) < |lines|
    ensures OnlyDirective(InsertLine(lines, m), FirstHeader(lines) + 1)
  {
    hide IsMtu, MtuLine, PutAfter, Found, FirstHeader;
    forall i | 0 <= i < |InsertLine(lines, m)|
      ensures IsMtu(InsertLine(lines, m), i) <==> i == FirstHeader(lines) + 1
    {
      InsertedDirectives(lines, m, i);
    }
  }

  lemma ReplaceOnly(lines: seq<string>, h: nat, x: string, m: nat)
    requires h < |lines| && OnlyDirective(PutAfter(lines, h, x), h + 1)
    ensures Replace(PutAfter(lines, h, x), m) == PutAfter(lines, h, MtuLine(m))
  {
    hide IsMtu, MtuLine;
  }

  lemma ReplaceInserted(lines: seq<string>, m1: nat, m2: nat)
    requires !Found(lines) && FirstHeader(lines) < |lines|
    ensures Replace(InsertLine(lines, m1), m2) == InsertLine(lines, m2)
  {
    hide OnlyDirective, MtuLine, Replace, Found, IsMtu, PutAfter, FirstHeader;
    assert InsertLine(lines, m1) == PutAfter(lines, FirstHeader(lines), MtuLine(m1));
    assert InsertLine(lines, m2) == PutAfter(lines, FirstHeader(lines), MtuLine(m2));
    InsertedOnly(lines, m1);
    ReplaceOnly(lines, FirstHeader(lines), MtuLine(m1), m2);
  }

  /** Rewriting a rewritten list again in place is rewriting the original. */
  lemma ReplaceApply(lines: seq<string>, m1: nat, m2: nat)
    requires Found(ApplyLines(lines, m1))
    ensures Replace(ApplyLines(lines, m1), m2) == ApplyLines(lines, m2)
  {
    hide IsMtu, MtuLine, FirstHeader;
    if Found(lines) {
      ReplaceSameKinds(lines, m1);
      SameDirectives(lines, ApplyLines(lines, m1));
    } else {
      StripSameKinds(lines);
      SameDirectives(lines, Strip(lines));
      if FirstHeader(Strip(lines)) < |lines| {
        ReplaceInserted(Strip(lines), m1, m2);
      }
    }
  }

  lemma ApplyNoNewline(lines: seq<string>, m: nat)
    requires NoNewline(lines)
    ensures NoNewline(ApplyLines(lines, m))
  {
    hide IsMtu, MtuLine;
    MtuLineFacts(m);
  }

  /** A rewritten text has a directive exactly when it had one or has an [Interface] header. */
  lemma ApplyFinds(lines: seq<string>, m: nat)
    ensures Found(ApplyLines(lines, m)) <==> Found(lines) || FirstHeader(Strip(lines)) < |lines|
  {
    hide IsMtu, MtuLine;
    var out := ApplyLines(lines, m);
    if Found(lines) {
      ReplaceSameKinds(lines, m);
      SameDirectives(lines, out);
    } else {
      StripSameKinds(lines);
      SameDirectives(lines, Strip(lines));
      if FirstHeader(Strip(lines)) < |lines| {
        InsertedDirectives(Strip(lines), m, FirstHeader(Strip(lines)) + 1);
      }
    }
  }

  /** The second rewrite, seen through the lines of the first. */
  lemma TwiceInPlace(once: seq<string>, m: nat)
    requires Found(once)
    ensures ApplyLines(Strip(once), m) == Replace(once, m) <==> Clean(once)
  {
    hide MtuLine, StripCr, IsMtu;
    StripSameKinds(once);
    SameDirectives(once, Strip(once));
    var a, b := Replace(Strip(once), m), Replace(once, m);
    if !Clean(once) {
      var i :| 0 <= i < |once| && !IsMtu(once, i) && StripCr(once[i]) != once[i];
      assert a[i] != b[i];
    }
  }

  lemma TwiceWithoutInterface(once: seq<string>, m: nat)
    requires !Found(once) && FirstHeader(once) == |once|
    ensures ApplyLines(Strip(once), m) == once <==> Clean(once)
  {
    hide MtuLine, IsMtu, KindOf;
    StripSameKinds(once);
    SameDirectives(once, Strip(once));
    var twice := Strip(Strip(once));
    StripSameKinds(Strip(once));
    assert FirstHeader(twice) == |twice|;
    if !Clean(once) {
      var i :| 0 <= i < |once| && !IsMtu(once, i) && StripCr(once[i]) != once[i];
      assert |twice[i]| < |once[i]|;
    }
  }

  /** No stray carriage return is left on the lines the rewrite works on. */
  ghost predicate Settled(text: string) {
    Clean(Seen(Lines(text)))
  }

  lemma AppliedClean(lines: seq<string>, m: nat)
    ensures Clean(ApplyLines(lines, m)) <==> Clean(Seen(lines))
  {
    hide Clean, Others, ApplyLines, Seen;
    OthersApply(lines, m);
    CleanByOthers(ApplyLines(lines, m));
    CleanByOthers(Seen(lines));
  }

  lemma TwiceOnLines(lines: seq<string>, m1: nat, m2: nat)
    ensures ApplyLines(Strip(ApplyLines(lines, m1)), m2) == ApplyLines(lines, m2) <==> Clean(Seen(lines))
  {
    hide MtuLine, IsMtu, Clean, Found, KindOf;
    var once := ApplyLines(lines, m1);
    AppliedClean(lines, m1);
    ApplyFinds(lines, m1);
    if Found(once) {
      ReplaceApply(lines, m1, m2);
      TwiceInPlace(once, m2);
    } else {
      TwiceWithoutInterface(once, m2);
    }
  }

  /** The last override wins, exactly on texts without stray carriage returns. */
  lemma LastWins(text: string, m1: nat, m2: nat)
    ensures Apply(Apply(text, m1), m2) == Apply(text, m2) <==> Settled(text)
  {
    hide Lines, Unlines, ApplyLines, Clean, Seen, Strip;
    var lines := Lines(text);
    ApplyNoNewline(lines, m1);
    ApplyNoNewline(lines, m2);
    LinesOfUnlines(ApplyLines(lines, m1));
    TwiceOnLines(lines, m1, m2);
    ApplyNoNewline(Strip(ApplyLines(lines, m1)), m2);
    if Apply(Apply(text, m1), m2) == Apply(text, m2) {
      UnlinesInjective(ApplyLines(Strip(ApplyLines(lines, m1)), m2), ApplyLines(lines, m2));
    }
  }

  /** Whatever the text, every directive of the result reads the override. */
  lemma EveryDirectiveReads(text: string, m: nat, i: nat)
    requires i < |Lines(Apply(text, m))| && IsMtu(Lines(Apply(text, m)), i)
    ensures Lines(Apply(text, m))[i] == MtuLine(m)
  {
    hide MtuLine, IsMtu, Lines, Unlines;
    var lines := Lines(text);
    var out := ApplyLines(lines, m);
    ApplyNoNewline(lines, m);
    LinesOfUnlines(out);
    StripSameKinds(out);
    SameDirectives(out, Strip(out));
    MtuLineFacts(m);
    if Found(lines) {
      ReplaceSameKinds(lines, m);
      SameDirectives(lines, out);
    } else {
      StripSameKinds(lines);
      SameDirectives(lines, Strip(lines));
      if FirstHeader(Strip(lines)) < |lines| {
        InsertedDirectives(Strip(lines), m, i);
      }
    }
  }

  lemma {:induction false} OthersOfStrip(lines: seq<string>, n: nat)
    requires n <= |lines| && SameKinds(lines, Strip(lines))
    ensures Others(Strip(lines)[..n]) == Strip(Others(lines[..n]))
    decreases n
  {
    hide IsMtu, StripCr, SameKinds;
    if n > 0 {
      OthersOfStrip(lines, n - 1);
      SameDirectives(lines, Strip(lines));
      PrefixDirectives(lines, n, n - 1);
      PrefixDirectives(Strip(lines), n, n - 1);
      assert lines[..n][..n - 1] == lines[..n - 1] && Strip(lines)[..n][..n - 1] == Strip(lines)[..n - 1];
      assert Strip(Others(lines[..n - 1]) + [lines[n - 1]]) == Strip(Others(lines[..n - 1])) + [StripCr(lines[n - 1])];
    }
  }

  /** Whatever the text, all other lines keep their order, and their content up to one carriage return at the end. */
  lemma OtherLinesKept(text: string, m: nat)
    ensures Others(Lines(Apply(text, m))) == Strip(Others(Seen(Lines(text))))
  {
    hide MtuLine, IsMtu, Lines, Unlines, ApplyLines, Others, Seen, SameKinds;
    var lines := Lines(text);
    var out := ApplyLines(lines, m);
    ApplyNoNewline(lines, m);
    LinesOfUnlines(out);
    OthersApply(lines, m);
    StripSameKinds(out);
    OthersOfStrip(out, |out|);
    assert out[..|out|] == out && Strip(out)[..|out|] == Strip(out);
  }

  // ---- which lines are meant --------------------------------------------------------------------------

  /** A key of any case with white space around it, an equals sign, and anything behind it. */
  ghost predicate AssignsMtu(line: string) {
    exists a, key, b, value ::
      Spaces(a) && Spaces(b) && AnyCase(key, "mtu") && line == a + key + b + ['='] + value
  }

  /** An [Interface] header of any case, alone on its line but for white space. */
  ghost predicate NamesInterface(line: string) {
    exists a, name, b :: Spaces(a) && Spaces(b) && AnyCase(name, "[interface]") && line == a + name + b
  }

  /** A line that opens a section. */
  ghost predicate OpensSection(line: string) {
    exists a, rest :: Spaces(a) && line == a + ['['] + rest
  }

  lemma TrimmedAssigns(key: string, b: string, value: string) returns (rest: string)
    requires AnyCase(key, "mtu") && Spaces(b)
    ensures Trim(key + b + ['='] + value) == key + b + ['='] + rest
  {
    hide IsSpace, TrimEnd;
    var core := key + b + ['='] + value;
    assert !IsSpace(core[0]) && !IsSpace('=') by { assert core[0] == key[0]; Letters(key); }
    assert TrimStart(core) == core;
    var tail := TrimEndParts(core);
    var n := |key + b|;
    assert core == TrimEnd(core) + tail;
    assert core[n] == '=';
    assert forall i :: |TrimEnd(core)| <= i < |core| ==> IsSpace(core[i]);
    assert TrimEnd(core)[..n + 1] == core[..n + 1] == key + b + ['='];
    rest := TrimEnd(core)[n + 1..];
    assert TrimEnd(core) == TrimEnd(core)[..n + 1] + rest;
  }

  lemma Letters(key: string)
    requires AnyCase(key, "mtu")
    ensures Tight(key) && '=' !in key && key[0] != '[' && !IsSpace('=')
  {
  }

  lemma SpacesHaveNone(b: string)
    requires Spaces(b)
    ensures '=' !in b && '[' !in b
  {
    assert !IsSpace('=') && !IsSpace('[');
  }

  /** Exactly these lines assign the MTU. */
  lemma MtuKeyExactly(line: string)
    ensures KindOf(line).MtuKey? <==> AssignsMtu(line)
  {
    hide IsSpace, Trim;
    if AssignsMtu(line) {
      var a, key, b, value :|
        Spaces(a) && Spaces(b) && AnyCase(key, "mtu") && line == a + key + b + ['='] + value;
      AssignsIsKey(line, a, key, b, value);
    }
    if KindOf(line).MtuKey? {
      KeyAssigns(line);
    }
  }

  lemma AssignsIsKey(line: string, a: string, key: string, b: string, value: string)
    requires Spaces(a) && Spaces(b) && AnyCase(key, "mtu") && line == a + key + b + ['='] + value
    ensures KindOf(line).MtuKey?
  {
    hide IsSpace, Trim, SplitOnce;
    var core := key + b + ['='] + value;
    assert line == a + core + [];
    TrimPadding(a, core, []);
    var rest := TrimmedAssigns(key, b, value);
    Letters(key);
    SpacesHaveNone(b);
    SplitOnceAt(key + b, '=', rest);
    assert key + b == [] + key + b;
    TrimTight([], key, b);
    IgnoresCase(key, "mtu");
    assert (key + b + ['='] + rest)[0] == key[0];
  }

  lemma KeyAssigns(line: string)
    requires KindOf(line).MtuKey?
    ensures AssignsMtu(line)
  {
    hide IsSpace, Trim;
    var a, z := TrimParts(line);
    var (k, value) := SplitOnce(Trim(line), '=').value;
    var a', b := TrimParts(k);
    IgnoresCase(Trim(k), "mtu");
    SpacesJoin(a, a');
    assert line == (a + a') + Trim(k) + b + ['='] + (value + z);
  }

  lemma SpacesJoin(a: string, b: string)
    requires Spaces(a) && Spaces(b)
    ensures Spaces(a + b)
  {
    hide IsSpace;
  }

  /** Exactly these lines are [Interface] headers. */
  lemma HeaderExactly(line: string)
    ensures IsHeader(line) <==> NamesInterface(line)
  {
    hide IsSpace, Trim, SplitOnce;
    IgnoresCase(Trim(line), "[interface]");
    if NamesInterface(line) {
      var a, name, b :| Spaces(a) && Spaces(b) && AnyCase(name, "[interface]") && line == a + name + b;
      HeaderTight(name);
      TrimTight(a, name, b);
    }
    if IsHeader(line) {
      var a, b := TrimParts(line);
    }
  }

  lemma HeaderTight(name: string)
    requires AnyCase(name, "[interface]")
    ensures Tight(name) && name[0] == '['
  {
    assert name[0] == '[' && name[10] == ']';
  }

  /** And exactly these open any section. */
  lemma SectionExactly(line: string)
    ensures KindOf(line).Header? <==> OpensSection(line)
  {
    hide IsSpace, Trim, SplitOnce;
    var a, b := TrimParts(line);
    if KindOf(line).Header? {
      assert line == a + ['['] + (Trim(line)[1..] + b);
    }
    if OpensSection(line) {
      var c, rest :| Spaces(c) && line == c + ['['] + rest;
      OpeningTrimmed(line, c, rest);
    }
  }

  lemma OpeningTrimmed(line: string, a: string, rest: string)
    requires Spaces(a) && line == a + ['['] + rest
    ensures Trim(line) != [] && Trim(line)[0] == '['
  {
    hide IsSpace, TrimEnd;
    var core := ['['] + rest;
    assert line == a + core + [];
    TrimPadding(a, core, []);
    assert !IsSpace('[') by { SpacesHaveNoBracket(); }
    assert TrimStart(core) == core;
    var tail := TrimEndParts(core);
    assert core[0] == '[';
    assert forall i :: |TrimEnd(core)| <= i < |core| ==> IsSpace(core[i]);
    assert TrimEnd(core)[0] == core[0];
  }

  lemma SpacesHaveNoBracket()
    ensures !IsSpace('[')
  {
  }

  /** The place behind these lines is in an [Interface] section exactly if the last section they open is one. */
  lemma {:induction false} InInterfaceExactly(lines: seq<string>)
    ensures InInterface(lines) <==>
      exists h ::
        && 0 <= h < |lines| && NamesInterface(lines[h])
        && forall j :: h < j < |lines| ==> !OpensSection(lines[j])
  {
    hide KindOf, NamesInterface, OpensSection;
    if lines != [] {
      var init, last := lines[..|lines| - 1], |lines| - 1;
      InInterfaceExactly(init);
      HeaderExactly(lines[last]);
      SectionExactly(lines[last]);
      if KindOf(lines[last]).Header? {
        if h :|
             && 0 <= h < |lines| && NamesInterface(lines[h])
             && forall j :: h < j < |lines| ==> !OpensSection(lines[j]) {
          assert h == last;
        }
      } else if h :|
                  && 0 <= h < |init| && NamesInterface(init[h])
                  && forall j :: h < j < |init| ==> !OpensSection(init[j]) {
        assert NamesInterface(lines[h]);
      }
    }
  }

  /** The line that is written assigns the MTU the number itself. */
  lemma MtuLineReads(m: nat)
    ensures MtuLine(m) == "MTU = " + Decimal(m) && DecimalValue(Decimal(m)) == m
  {
    DecimalReadsBack(m);
  }

  /** A text without a directive gets it right behind its first [Interface] header. */
  lemma InsertedBehindHeader(text: string, m: nat, h: nat)
    requires !Found(Lines(text)) && h < |Lines(text)| && NamesInterface(Lines(text)[h])
    requires forall i :: 0 <= i < h ==> !NamesInterface(Lines(text)[i])
    ensures |Lines(Apply(text, m))| == |Lines(text)| + 1 && Lines(Apply(text, m))[h + 1] == MtuLine(m)
  {
    hide MtuLine, IsMtu, Lines, Unlines, KindOf, NamesInterface, Found;
    var lines := Lines(text);
    var out := ApplyLines(lines, m);
    StripSameKinds(lines);
    forall i | 0 <= i <= h
      ensures IsHeader(Strip(lines)[i]) <==> NamesInterface(lines[i])
    {
      HeaderExactly(lines[i]);
    }
    assert FirstHeader(Strip(lines)) == h;
    ApplyNoNewline(lines, m);
    LinesOfUnlines(out);
    MtuLineFacts(m);
    assert out[h + 1] == MtuLine(m);
  }
}
