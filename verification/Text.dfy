/** The string and byte-slice primitives of Go's standard library that the
    repository builds on, each specified by what it finds rather than how. */
module Text {

  // ----- case folding ------------------------------------------------------

  function LowerChar(c: char): char {
    if 'A' <= c <= 'Z' then (c as int + 32) as char else c
  }

  /** `strings.ToLower` on ASCII letters; other characters are left alone. */
  function Lower(s: string): (r: string)
    ensures |r| == |s|
    ensures forall i :: 0 <= i < |s| ==> r[i] == LowerChar(s[i])
  {
    seq(|s|, i requires 0 <= i < |s| => LowerChar(s[i]))
  }

  /** Capitals become their small letters; nothing else changes. */
  lemma LowerMeans(s: string, i: nat)
    requires i < |s|
    ensures if 'A' <= s[i] <= 'Z' then Lower(s)[i] as int - 'a' as int == s[i] as int - 'A' as int else Lower(s)[i] == s[i]
  {
  }

  lemma LowerConcat(a: string, b: string)
    ensures Lower(a + b) == Lower(a) + Lower(b)
  {
  }

  // ----- searching ---------------------------------------------------------

  predicate OccursAt<T(==)>(s: seq<T>, sub: seq<T>, k: int) {
    0 <= k && k + |sub| <= |s| && s[k..k + |sub|] == sub
  }

  predicate HasSuffix<T(==)>(s: seq<T>, suffix: seq<T>) {
    |suffix| <= |s| && s[|s| - |suffix|..] == suffix
  }

  /** Leftmost occurrence of `sub` at or after `from`, or -1. */
  function IndexFrom<T(==)>(s: seq<T>, sub: seq<T>, from: nat): (r: int)
    ensures r == -1 || from <= r
    ensures r >= 0 ==> OccursAt(s, sub, r)
    ensures forall k :: from <= k && (r == -1 || k < r) ==> !OccursAt(s, sub, k)
    decreases |s| - from
  {
    if from + |sub| > |s| then -1
    else if OccursAt(s, sub, from) then from
    else IndexFrom(s, sub, from + 1)
  }

  /** `strings.Index` / `bytes.Index`. */
  function Index<T(==)>(s: seq<T>, sub: seq<T>): (r: int)
    ensures -1 <= r <= |s| - |sub| || r == -1
    ensures r >= 0 ==> OccursAt(s, sub, r)
    ensures forall k :: 0 <= k && (r == -1 || k < r) ==> !OccursAt(s, sub, k)
  {
    IndexFrom(s, sub, 0)
  }

  lemma OccursAtPrefix<T>(s: seq<T>, t: seq<T>, sub: seq<T>, k: int)
    requires k + |sub| <= |s|
    ensures OccursAt(s + t, sub, k) <==> OccursAt(s, sub, k)
  {
    if 0 <= k { assert (s + t)[k..k + |sub|] == s[k..k + |sub|]; }
  }

  /** What was found stays the leftmost when more follows. */
  lemma IndexAppend<T>(s: seq<T>, t: seq<T>, sub: seq<T>)
    requires Index(s, sub) >= 0
    ensures Index(s + t, sub) == Index(s, sub)
  {
    var i, j := Index(s, sub), Index(s + t, sub);
    OccursAtPrefix(s, t, sub, i);
    assert 0 <= j <= i;
    OccursAtPrefix(s, t, sub, j);
  }

  /** The occurrence found is also the first of the prefix it ends. */
  lemma IndexOfPrefix<T>(s: seq<T>, sub: seq<T>)
    requires Index(s, sub) >= 0
    ensures Index(s[..Index(s, sub) + |sub|], sub) == Index(s, sub)
  {
    var i := Index(s, sub);
    var e, t := s[..i + |sub|], s[i + |sub|..];
    assert s == e + t;
    OccursAtPrefix(e, t, sub, i);
    var j := Index(e, sub);
    assert 0 <= j <= i;
    OccursAtPrefix(e, t, sub, j);
  }

  /** A prefix that holds no occurrence leaves the one that follows it the leftmost,
      for a pattern that cannot overlap itself. */
  lemma IndexAfter<T>(a: seq<T>, sub: seq<T>, b: seq<T>)
    requires sub != [] && sub[0] !in sub[1..] && Index(a, sub) < 0
    ensures Index(a + sub + b, sub) == |a|
  {
    hide IndexFrom;
    var s := a + sub + b;
    assert s[|a|..|a| + |sub|] == sub;
    assert OccursAt(s, sub, |a|);
    forall k | 0 <= k < |a| ensures !OccursAt(s, sub, k) {
      if k + |sub| <= |a| {
        assert s == a + (sub + b);
        OccursAtPrefix(a, sub + b, sub, k);
      } else if k + |sub| <= |s| {
        assert sub[|a| - k] in sub[1..] by { assert sub[1..][|a| - k - 1] == sub[|a| - k]; }
        assert s[k..k + |sub|][|a| - k] == s[|a|] == sub[0];
      }
    }
  }

  /** `bytes.LastIndexByte` / `strings.LastIndex` of one element, or -1. */
  function LastIndex<T(==)>(s: seq<T>, c: T): (r: int)
    ensures -1 <= r < |s|
    ensures r >= 0 ==> s[r] == c
    ensures forall k :: r < k < |s| ==> s[k] != c
  {
    if s == [] then -1
    else if s[|s| - 1] == c then |s| - 1
    else LastIndex(s[..|s| - 1], c)
  }

  // ----- splitting ---------------------------------------------------------

  /** `strings.Split` on a one-character separator: never empty, and no part
      holds the separator. */
  function Split<T(==)>(s: seq<T>, sep: T): (parts: seq<seq<T>>)
    ensures |parts| >= 1
    ensures forall i :: 0 <= i < |parts| ==> sep !in parts[i]
    ensures sep !in s ==> parts == [s]
  {
    if s == [] then [[]]
    else
      var rest := Split(s[1..], sep);
      if s[0] == sep then [[]] + rest
      else
        assert sep !in s ==> [s[0]] + s[1..] == s && sep !in s[1..];
        [[s[0]] + rest[0]] + rest[1..]
  }

  /** Splitting distributes over a separator: the inverse view of `Split`. */
  lemma {:induction false} SplitAtSeparator<T>(a: seq<T>, sep: T, b: seq<T>)
    ensures Split(a + [sep] + b, sep) == Split(a, sep) + Split(b, sep)
  {
    var s := a + [sep] + b;
    if a == [] {
      assert s[1..] == b;
    } else {
      assert s[1..] == a[1..] + [sep] + b;
      SplitAtSeparator(a[1..], sep, b);
    }
  }

  /** The first part, and the rest from the first separator on. */
  lemma {:induction false} SplitFirst<T>(s: seq<T>, sep: T)
    ensures var first := Split(s, sep)[0];
      |first| <= |s| && s[..|first|] == first && (|first| < |s| ==> s[|first|] == sep)
  {
    if s != [] {
      SplitFirst(s[1..], sep);
      if s[0] != sep {
        var first := Split(s[1..], sep)[0];
        assert ([s[0]] + first) == s[..|first| + 1];
      }
    }
  }

  /** A piece without a separator goes in front of the first part. */
  lemma {:induction false} SplitPrefix<T>(tail: seq<T>, b: seq<T>, sep: T)
    requires sep !in tail
    ensures var y := Split(b, sep); Split(tail + b, sep) == [tail + y[0]] + y[1..]
  {
    var y := Split(b, sep);
    if tail == [] {
      assert tail + b == b && tail + y[0] == y[0] && y == [y[0]] + y[1..];
    } else {
      assert (tail + b)[1..] == tail[1..] + b;
      SplitPrefix(tail[1..], b, sep);
      assert [tail[0]] + (tail[1..] + y[0]) == tail + y[0];
    }
  }

  /** Gluing two pieces glues the last part of the first to the first of the second. */
  lemma SplitConcat<T>(a: seq<T>, b: seq<T>, sep: T)
    ensures var x, y := Split(a, sep), Split(b, sep);
      Split(a + b, sep) == x[..|x| - 1] + ([x[|x| - 1] + y[0]] + y[1..])
  {
    hide Split;
    var i := LastIndex(a, sep);
    var tail := a[i + 1..];
    assert sep !in tail by { assert forall k :: 0 <= k < |tail| ==> tail[k] == a[i + 1 + k]; }
    SplitPrefix(tail, b, sep);
    if i < 0 {
      assert a == tail;
    } else {
      assert a == a[..i] + [sep] + tail && a + b == a[..i] + [sep] + (tail + b);
      SplitAtSeparator(a[..i], sep, tail);
      SplitAtSeparator(a[..i], sep, tail + b);
      assert Split(tail, sep) == [tail];
    }
  }

  lemma {:induction false} SplitShort<T>(s: seq<T>, sep: T)
    ensures forall i :: 0 <= i < |Split(s, sep)| ==> |Split(s, sep)[i]| <= |s|
  {
    if s != [] { SplitShort(s[1..], sep); }
  }

  /** A separator absent from both right halves splits a string in only one way. */
  lemma CutLast<T>(a: seq<T>, b: seq<T>, c: T, a': seq<T>, b': seq<T>)
    requires c !in b && c !in b' && a + [c] + b == a' + [c] + b'
    ensures a == a' && b == b'
  {
    var s := a + [c] + b;
    assert forall k :: |a| < k < |s| ==> s[k] == b[k - |a| - 1];
    assert forall k :: |a'| < k < |s| ==> s[k] == b'[k - |a'| - 1];
    assert s[|a|] == c && s[|a'|] == c;
    assert |a| == |a'|;
    assert a == s[..|a|] == a';
    assert b == s[|a| + 1..] == b';
  }

  /** The longer left half swallows a separator of the other right half. */
  ghost predicate Overlap<T(!new)>(a: seq<T>, b: seq<T>, c: T, a': seq<T>, b': seq<T>) {
    exists x :: a' == a + [c] + x && b == x + [c] + b'
  }

  lemma OverlapIff<T(!new)>(a: seq<T>, b: seq<T>, c: T, a': seq<T>, b': seq<T>)
    requires |a| < |a'|
    ensures a + [c] + b == a' + [c] + b' <==> Overlap(a, b, c, a', b')
  {
    var s := a + [c] + b;
    if s == a' + [c] + b' {
      var x := a'[|a| + 1..];
      assert a' == s[..|a'|] == a + [c] + x;
      assert b == s[|a| + 1..] == x + [c] + b';
    }
    if x :| a' == a + [c] + x && b == x + [c] + b' {
      assert a + [c] + (x + [c] + b') == (a + [c] + x) + [c] + b';
    }
  }

  /** When two strings joined by a separator are the same string. */
  lemma JoinedIff<T(!new)>(a: seq<T>, b: seq<T>, c: T, a': seq<T>, b': seq<T>)
    ensures a + [c] + b == a' + [c] + b' <==>
      (a == a' && b == b') || Overlap(a, b, c, a', b') || Overlap(a', b', c, a, b)
  {
    var s, s' := a + [c] + b, a' + [c] + b';
    if |a| < |a'| {
      OverlapIff(a, b, c, a', b');
    } else if |a'| < |a| {
      OverlapIff(a', b', c, a, b);
    } else {
      assert s[..|a|] == a && s'[..|a|] == a' && s[|a| + 1..] == b && s'[|a| + 1..] == b';
      assert !Overlap(a, b, c, a', b') && !Overlap(a', b', c, a, b);
    }
  }

  // ----- character classes --------------------------------------------------------

  predicate IsDigit(c: char) {
    '0' <= c <= '9'
  }

  /** `unicode.IsSpace`. */
  predicate IsSpace(c: char) {
    var n := c as int;
    || 0x09 <= n <= 0x0D || n == 0x20 || n == 0x85 || n == 0xA0 || n == 0x1680 || 0x2000 <= n <= 0x200A
    || n == 0x2028 || n == 0x2029 || n == 0x202F || n == 0x205F || n == 0x3000
  }

  predicate Blank(s: string) {
    forall i :: 0 <= i < |s| ==> IsSpace(s[i])
  }

  /** The first ink at or after `from`, or the end. */
  function InkFrom(s: string, from: nat): (r: nat)
    requires from <= |s|
    ensures from <= r <= |s| && (r < |s| ==> !IsSpace(s[r]))
    ensures forall i :: from <= i < r ==> IsSpace(s[i])
    decreases |s| - from
  {
    if from < |s| && IsSpace(s[from]) then InkFrom(s, from + 1) else from
  }

  /** The end of the last ink before `to`, or the beginning. */
  function InkBefore(s: string, to: nat): (r: nat)
    requires to <= |s|
    ensures r <= to && (r > 0 ==> !IsSpace(s[r - 1]))
    ensures forall i :: r <= i < to ==> IsSpace(s[i])
  {
    if to > 0 && IsSpace(s[to - 1]) then InkBefore(s, to - 1) else to
  }

  function TrimLeft(s: string): (r: string)
    ensures |r| <= |s| && r == s[|s| - |r|..]
    ensures r != [] ==> !IsSpace(r[0])
    ensures forall i :: 0 <= i < |s| - |r| ==> IsSpace(s[i])
  {
    s[InkFrom(s, 0)..]
  }

  function TrimRight(s: string): (r: string)
    ensures |r| <= |s| && r == s[..|r|]
    ensures r != [] ==> !IsSpace(r[|r| - 1])
    ensures forall i :: |r| <= i < |s| ==> IsSpace(s[i])
  {
    s[..InkBefore(s, |s|)]
  }

  /** `strings.TrimSpace`. */
  function TrimSpace(s: string): (r: string)
    ensures r != [] ==> !IsSpace(r[0]) && !IsSpace(r[|r| - 1])
    ensures r == [] <==> forall i :: 0 <= i < |s| ==> IsSpace(s[i])
  {
    TrimRight(TrimLeft(s))
  }

  /** Trimming starts at the first ink. */
  lemma TrimLeftAt(s: string, k: nat)
    requires k < |s| && !IsSpace(s[k]) && forall i :: 0 <= i < k ==> IsSpace(s[i])
    ensures TrimLeft(s) == s[k..]
  {
    hide IsSpace; hide TrimLeft;
    var r := TrimLeft(s);
    var at := |s| - |r|;
    assert r != "" ==> r[0] == s[at];
    assert at == k;
  }

  lemma TrimLeftOfInk(ink: string, s: string)
    requires TrimLeft(ink) != ""
    ensures TrimLeft(ink + s) == TrimLeft(ink) + s
  {
    hide IsSpace; hide TrimLeft;
    var r := TrimLeft(ink);
    var k := |ink| - |r|;
    assert ink[k] == r[0];
    assert forall i :: 0 <= i < |ink| ==> (ink + s)[i] == ink[i];
    TrimLeftAt(ink + s, k);
    assert (ink + s)[k..] == ink[k..] + s;
  }

  lemma TrimLeftKeepsInk(s: string)
    requires TrimSpace(s) != ""
    ensures TrimLeft(s) != ""
  {
    hide IsSpace; hide TrimLeft; hide TrimRight;
  }

  lemma InkAtEnd(t: string)
    requires t != "" && !IsSpace(t[|t| - 1])
    ensures TrimRight(t) == t
  {
    hide IsSpace;
  }

  /** Solid text after ink: only the front is trimmed. */
  lemma TrimOfInk(ink: string, s: string)
    requires TrimSpace(ink) != "" && s != "" && !IsSpace(s[|s| - 1])
    ensures TrimLeft(ink) != "" && TrimSpace(ink + s) == TrimLeft(ink) + s
  {
    hide IsSpace; hide TrimRight; hide TrimLeft;
    TrimLeftKeepsInk(ink);
    TrimLeftOfInk(ink, s);
    var t := TrimLeft(ink) + s;
    assert t[|t| - 1] == s[|s| - 1];
    InkAtEnd(t);
  }

  /** Trimming ends at the last ink. */
  lemma TrimRightAt(s: string, k: nat)
    requires 0 < k <= |s| && !IsSpace(s[k - 1]) && forall i :: k <= i < |s| ==> IsSpace(s[i])
    ensures TrimRight(s) == s[..k]
  {
    hide IsSpace; hide TrimRight;
    var r := TrimRight(s);
    assert r != "" ==> r[|r| - 1] == s[|r| - 1];
    assert |r| == k;
  }

  lemma {:induction false} BlankPrefix(blank: string, s: string)
    requires Blank(blank)
    ensures TrimSpace(blank + s) == TrimSpace(s)
  {
    hide TrimRight; hide IsSpace;
    if blank == "" {
      assert blank + s == s;
    } else {
      assert (blank + s)[1..] == blank[1..] + s;
      BlankPrefix(blank[1..], s);
    }
  }

  /** What is trimmed on either side is blank. */
  lemma TrimmedIsBlank(s: string)
    ensures Blank(s[..|s| - |TrimLeft(s)|]) && Blank(s[|TrimRight(s)|..])
  {
    hide IsSpace; hide TrimLeft; hide TrimRight;
    var lead, trail := s[..|s| - |TrimLeft(s)|], s[|TrimRight(s)|..];
    assert forall i :: 0 <= i < |lead| ==> lead[i] == s[i];
    assert forall i :: 0 <= i < |trail| ==> trail[i] == s[|TrimRight(s)| + i];
  }

  lemma TrimSpaceIs(s: string)
    ensures TrimSpace(s) == TrimRight(TrimLeft(s))
  {
  }

  /** Ink in a string that starts with ink: trimming the rest of the string, in front
      of it or not, ends at the same ink. */
  lemma TrimRightLead(lead: string, l: string)
    requires TrimRight(l) != ""
    ensures TrimRight(lead + l) == lead + TrimRight(l)
  {
    hide IsSpace; hide TrimRight;
    var t, s := TrimRight(l), lead + l;
    var k := |lead| + |t|;
    assert s[k - 1] == l[|t| - 1] == t[|t| - 1];
    assert forall i :: k <= i < |s| ==> s[i] == l[i - |lead|];
    TrimRightAt(s, k);
    assert s[..k] == lead + l[..|t|];
  }

  lemma SliceParts(s: string, l: string, t: string)
    requires |l| <= |s| && l == s[|s| - |l|..] && |t| <= |l| && t == l[..|t|]
    ensures s == s[..|s| - |l|] + l && s == s[..|s| - |l|] + t + l[|t|..]
  {
  }

  lemma TrimRightLength(s: string, l: string, t: string)
    requires |l| <= |s| && l == s[|s| - |l|..] && TrimRight(l) == t && t != ""
    ensures |TrimRight(s)| == |s| - |l| + |t|
  {
    hide IsSpace; hide TrimRight;
    assert s == s[..|s| - |l|] + l;
    TrimRightLead(s[..|s| - |l|], l);
  }

  /** A line is blank, ink, blank; `TrimSpace` is the ink. */
  lemma TrimParts(s: string) returns (lead: string, trail: string)
    ensures s == lead + TrimSpace(s) + trail && Blank(lead) && Blank(trail)
    ensures TrimSpace(s) != "" ==> |TrimLeft(s)| == |TrimSpace(s)| + |trail| && |TrimRight(s)| == |lead| + |TrimSpace(s)|
  {
    hide *;
    TrimSpaceIs(s);
    var l := TrimLeft(s);
    var t := TrimRight(l);
    lead, trail := s[..|s| - |l|], l[|t|..];
    assert Blank(lead) && Blank(trail) by { TrimmedIsBlank(s); TrimmedIsBlank(l); }
    assert s == lead + t + trail by { SliceParts(s, l, t); }
    if t != "" { TrimRightLength(s, l, t); }
  }

  /** Blanks around solid text are all that is trimmed. */
  lemma TrimAround(lead: string, t: string, trail: string)
    requires t != "" && !IsSpace(t[0]) && !IsSpace(t[|t| - 1]) && Blank(lead) && Blank(trail)
    ensures TrimSpace(lead + t + trail) == t
  {
    hide IsSpace; hide TrimLeft; hide TrimRight;
    var s := lead + t + trail;
    assert s[|lead|] == t[0] && forall i :: 0 <= i < |lead| ==> s[i] == lead[i];
    TrimLeftAt(s, |lead|);
    var l := s[|lead|..];
    assert l == t + trail && l[|t| - 1] == t[|t| - 1];
    assert forall i :: |t| <= i < |l| ==> l[i] == trail[i - |t|];
    TrimRightAt(l, |t|);
  }

  // ----- concatenation -----------------------------------------------------

  /** The pieces laid end to end. */
  function Concat<T>(pieces: seq<seq<T>>): (r: seq<T>) {
    if pieces == [] then [] else pieces[0] + Concat(pieces[1..])
  }

  lemma ConcatNil<T>()
    ensures Concat<T>([]) == []
  {
  }

  lemma ConcatCons<T>(p: seq<T>, pieces: seq<seq<T>>)
    ensures Concat([p] + pieces) == p + Concat(pieces)
  {
    assert ([p] + pieces)[1..] == pieces;
  }

  lemma {:induction false} ConcatSnoc<T>(pieces: seq<seq<T>>, p: seq<T>)
    ensures Concat(pieces + [p]) == Concat(pieces) + p
  {
    if pieces == [] {
      assert [p][1..] == [];
    } else {
      assert (pieces + [p])[1..] == pieces[1..] + [p];
      ConcatSnoc(pieces[1..], p);
    }
  }
}
