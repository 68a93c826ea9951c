/** The string operations of the source: `split_once`, `split`, `join` and `trim`. */
module Text {
  import opened Wrappers

  /** The White_Space property of Unicode, which `trim` goes by. */
  predicate IsSpace(c: char) {
    var n := c as int;
    || 9 <= n <= 13 || n == 0x20 || n == 0x85 || n == 0xA0 || n == 0x1680 || 0x2000 <= n <= 0x200A
    || n == 0x2028 || n == 0x2029 || n == 0x202F || n == 0x205F || n == 0x3000
  }

  function SplitOnce(s: string, sep: char): (r: Option<(string, string)>)
    ensures r.None? <==> sep !in s
    ensures r.Some? ==> sep !in r.value.0 && s == r.value.0 + [sep] + r.value.1
  {
    if s == [] then None
    else if s[0] == sep then Some(([], s[1..]))
    else match SplitOnce(s[1..], sep)
      case None => None
      case Some((a, b)) => Some(([s[0]] + a, b))
  }

  function Split(s: string, sep: char): (r: seq<string>)
    ensures r != []
  {
    if s == [] then [[]] else
    var rest := Split(s[1..], sep);
    if s[0] == sep then [[]] + rest else [[s[0]] + rest[0]] + rest[1..]
  }

  function Join(parts: seq<string>, sep: char): string {
    if parts == [] then [] else if |parts| == 1 then parts[0] else parts[0] + [sep] + Join(parts[1..], sep)
  }

  function TrimStart(s: string): string {
    if s != [] && IsSpace(s[0]) then TrimStart(s[1..]) else s
  }

  function TrimEnd(s: string): string {
    if s != [] && IsSpace(s[|s| - 1]) then TrimEnd(s[..|s| - 1]) else s
  }

  function Trim(s: string): string {
    TrimEnd(TrimStart(s))
  }

  lemma {:induction false} SplitOnceAt(a: string, sep: char, b: string)
    requires sep !in a
    ensures SplitOnce(a + [sep] + b, sep) == Some((a, b))
  {
    var s := a + [sep] + b;
    if a == [] {
      assert s[1..] == b;
    } else {
      assert s[1..] == a[1..] + [sep] + b;
      SplitOnceAt(a[1..], sep, b);
      assert [a[0]] + a[1..] == a;
    }
  }

  lemma {:induction false} SplitPlain(a: string, sep: char)
    requires sep !in a
    ensures Split(a, sep) == [a]
  {
    if a != [] {
      SplitPlain(a[1..], sep);
      assert [a[0]] + a[1..] == a;
    }
  }

  lemma {:induction false} SplitAt(a: string, sep: char, b: string)
    requires sep !in a
    ensures Split(a + [sep] + b, sep) == [a] + Split(b, sep)
  {
    var s := a + [sep] + b;
    if a == [] {
      assert s[1..] == b;
    } else {
      assert s[1..] == a[1..] + [sep] + b;
      SplitAt(a[1..], sep, b);
      assert [a[0]] + a[1..] == a;
    }
  }

  lemma {:induction false} SplitOfJoin(parts: seq<string>, sep: char)
    requires parts != [] && forall i :: 0 <= i < |parts| ==> sep !in parts[i]
    ensures Split(Join(parts, sep), sep) == parts
  {
    if |parts| == 1 {
      SplitPlain(parts[0], sep);
    } else {
      SplitOfJoin(parts[1..], sep);
      SplitAt(parts[0], sep, Join(parts[1..], sep));
      assert [parts[0]] + parts[1..] == parts;
    }
  }

  lemma TrimPlain(s: string)
    requires forall c :: c in s ==> !IsSpace(c)
    ensures TrimStart(s) == s && TrimEnd(s) == s && Trim(s) == s
  {
    if s != [] {
      assert s[0] in s && s[|s| - 1] in s;
    }
  }

  lemma {:induction false} TrimStartSpaceAfter(s: string, c: char)
    requires IsSpace(c)
    ensures TrimStart(s + [c]) == if TrimStart(s) == [] then [] else TrimStart(s) + [c]
  {
    if s == [] {
      assert s + [c] == [c];
      assert [c][1..] == [];
    } else {
      assert (s + [c])[1..] == s[1..] + [c];
      TrimStartSpaceAfter(s[1..], c);
    }
  }

  /** White space at the end makes no difference to `trim`. */
  lemma TrimSpaceAfter(s: string, c: char)
    requires IsSpace(c)
    ensures Trim(s + [c]) == Trim(s)
  {
    TrimStartSpaceAfter(s, c);
    var t := TrimStart(s);
    assert (t + [c])[..|t|] == t;
  }

  predicate Spaces(s: string) {
    forall i :: 0 <= i < |s| ==> IsSpace(s[i])
  }

  /** Nothing to trim at either end. */
  predicate Tight(s: string) {
    s != [] && !IsSpace(s[0]) && !IsSpace(s[|s| - 1])
  }

  lemma {:induction false} TrimStartParts(s: string) returns (a: string)
    ensures Spaces(a) && s == a + TrimStart(s) && (TrimStart(s) != [] ==> !IsSpace(TrimStart(s)[0]))
  {
    hide IsSpace;
    if s != [] && IsSpace(s[0]) {
      a := TrimStartParts(s[1..]);
      a := [s[0]] + a;
    } else {
      a := [];
    }
  }

  lemma {:induction false} TrimEndParts(s: string) returns (b: string)
    ensures Spaces(b) && s == TrimEnd(s) + b && (TrimEnd(s) != [] ==> !IsSpace(TrimEnd(s)[|TrimEnd(s)| - 1]))
  {
    hide IsSpace;
    if s != [] && IsSpace(s[|s| - 1]) {
      b := TrimEndParts(s[..|s| - 1]);
      b := b + [s[|s| - 1]];
    } else {
      b := [];
    }
  }

  /** A text is its trimmed form between white space. */
  lemma TrimParts(s: string) returns (a: string, b: string)
    ensures Spaces(a) && Spaces(b) && s == a + Trim(s) + b && (Trim(s) != [] ==> Tight(Trim(s)))
  {
    hide IsSpace;
    a := TrimStartParts(s);
    b := TrimEndParts(TrimStart(s));
    if Trim(s) != [] {
      assert Trim(s)[0] == TrimStart(s)[0];
    }
  }

  lemma {:induction false} TrimStartPadding(a: string, s: string)
    requires Spaces(a)
    ensures TrimStart(a + s) == TrimStart(s)
  {
    hide IsSpace;
    if a == [] {
      assert a + s == s;
    } else {
      assert (a + s)[1..] == a[1..] + s;
      TrimStartPadding(a[1..], s);
    }
  }

  /** White space around a text makes no difference to `trim`. */
  lemma {:induction false} TrimPadding(a: string, s: string, b: string)
    requires Spaces(a) && Spaces(b)
    ensures Trim(a + s + b) == Trim(s)
    decreases |b|
  {
    hide IsSpace, Trim, TrimStart, TrimEnd;
    if b == [] {
      assert a + s + b == a + s;
      assert Trim(a + s) == Trim(s) by { TrimsAlike(a, s); }
    } else {
      var last := |b| - 1;
      assert a + s + b == (a + s + b[..last]) + [b[last]];
      TrimSpaceAfter(a + s + b[..last], b[last]);
      TrimPadding(a, s, b[..last]);
    }
  }

  lemma TrimsAlike(a: string, s: string)
    requires Spaces(a)
    ensures Trim(a + s) == Trim(s)
  {
    hide IsSpace;
    TrimStartPadding(a, s);
  }

  /** A tight text between white space is what is left of it. */
  lemma TrimTight(a: string, s: string, b: string)
    requires Spaces(a) && Spaces(b) && Tight(s)
    ensures Trim(a + s + b) == s
  {
    TrimPadding(a, s, b);
  }

  /** The letters of a lower-case word in either case, everything else as it is. */
  predicate AnyCase(s: string, word: string) {
    |s| == |word| && forall i :: 0 <= i < |s| ==>
      s[i] == word[i] || ('a' <= word[i] <= 'z' && s[i] as int == word[i] as int - 32)
  }

  lemma IgnoresCase(s: string, word: string)
    requires forall i :: 0 <= i < |word| ==> 'a' <= word[i] <= 'z' || word[i] == '[' || word[i] == ']'
    ensures EqIgnoreCase(s, word) <==> AnyCase(s, word)
  {
  }

  function Lower(c: char): char {
    if 'A' <= c <= 'Z' then c + 32 as char else c
  }

  predicate EqIgnoreCase(a: string, b: string) {
    |a| == |b| && forall i :: 0 <= i < |a| ==> Lower(a[i]) == Lower(b[i])
  }

  // ---- decimal numbers

  predicate Digits(s: string) {
    forall i :: 0 <= i < |s| ==> '0' <= s[i] <= '9'
  }

  function Decimal(n: nat): (r: string)
    ensures r != [] && Digits(r)
  {
    var digit := ['0' + (n % 10) as char];
    if n < 10 then digit else Decimal(n / 10) + digit
  }

  /** The number a string of digits denotes. */
  function DecimalValue(digits: string): nat
    requires Digits(digits)
  {
    if digits == [] then 0 else 10 * DecimalValue(digits[..|digits| - 1]) + (digits[|digits| - 1] - '0') as nat
  }

  lemma {:induction false} DecimalReadsBack(n: nat)
    ensures DecimalValue(Decimal(n)) == n
  {
    if n >= 10 {
      DecimalReadsBack(n / 10);
      assert Decimal(n)[..|Decimal(n)| - 1] == Decimal(n / 10);
    }
  }
}
