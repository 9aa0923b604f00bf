/**
 The operations of Go's package strings the tools rely on, with their
 defining properties.  Separators are single characters.
 */
module GoStrings {
  import opened Wrappers

  predicate HasPrefix(s: string, prefix: string) {
    |prefix| <= |s| && s[..|prefix|] == prefix
  }

  predicate OccursAt(s: string, sub: string, i: nat) {
    i + |sub| <= |s| && s[i..i + |sub|] == sub
  }

  ghost predicate Contains(s: string, sub: string) {
    exists i: nat :: OccursAt(s, sub, i)
  }

  function IndexFrom(s: string, sub: string, from: nat): (r: Option<nat>)
    requires from <= |s| + 1
    requires forall j: nat :: j < from ==> !OccursAt(s, sub, j)
    ensures r.Some? ==> OccursAt(s, sub, r.value) && forall j: nat :: j < r.value ==> !OccursAt(s, sub, j)
    ensures r.None? <==> !Contains(s, sub)
    decreases |s| + 1 - from
  {
    if from > |s| then None
    else if OccursAt(s, sub, from) then Some(from)
    else IndexFrom(s, sub, from + 1)
  }

  /** strings.Index: the first occurrence. */
  function Index(s: string, sub: string): (r: Option<nat>)
    ensures r.Some? ==> OccursAt(s, sub, r.value) && forall j: nat :: j < r.value ==> !OccursAt(s, sub, j)
    ensures r.None? <==> !Contains(s, sub)
  {
    IndexFrom(s, sub, 0)
  }

  /** strings.Replace(s, old, new, 1) */
  function ReplaceFirst(s: string, old_: string, new_: string): string {
    match Index(s, old_)
    case None => s
    case Some(i) => s[..i] + new_ + s[i + |old_|..]
  }

  lemma ReplaceFirstAt(s: string, old_: string, new_: string, i: nat)
    requires OccursAt(s, old_, i) && forall j: nat :: j < i ==> !OccursAt(s, old_, j)
    ensures ReplaceFirst(s, old_, new_) == s[..i] + new_ + s[i + |old_|..]
  {
    assert Contains(s, old_);
    var k := Index(s, old_).value;
    assert !(k < i) && !(i < k);
  }

  /** strings.Split(s, sep) for a one-character separator. */
  function Split(s: string, sep: char): (parts: seq<string>)
    ensures |parts| >= 1
  {
    if s == [] then [[]]
    else
      var rest := Split(s[1..], sep);
      if s[0] == sep then [[]] + rest else [[s[0]] + rest[0]] + rest[1..]
  }

  /** strings.Join */
  function Join(parts: seq<string>, sep: string): string {
    if parts == [] then []
    else if |parts| == 1 then parts[0]
    else parts[0] + sep + Join(parts[1..], sep)
  }

  function Count(s: string, c: char): nat {
    if s == [] then 0 else Count(s[1..], c) + if s[0] == c then 1 else 0
  }

  lemma {:induction false} CountIsZero(s: string, c: char)
    ensures Count(s, c) == 0 <==> c !in s
  {
    if s != [] {
      CountIsZero(s[1..], c);
    }
  }

  lemma {:induction false} CountConcat(s: string, t: string, c: char)
    ensures Count(s + t, c) == Count(s, c) + Count(t, c)
  {
    if s == [] {
      assert s + t == t;
    } else {
      CountConcat(s[1..], t, c);
      assert (s + t)[1..] == s[1..] + t;
    }
  }

  lemma {:induction false} JoinUndoesSplit(s: string, sep: char)
    ensures Join(Split(s, sep), [sep]) == s
  {
    if s != [] {
      JoinUndoesSplit(s[1..], sep);
      var rest := Split(s[1..], sep);
      assert s == [s[0]] + s[1..];
      if s[0] == sep {
        assert Split(s, sep)[1..] == rest;
      } else {
        assert Split(s, sep)[1..] == rest[1..];
      }
    }
  }

  lemma {:induction false} SplitCount(s: string, sep: char)
    ensures |Split(s, sep)| == Count(s, sep) + 1
  {
    if s != [] {
      SplitCount(s[1..], sep);
    }
  }

  lemma {:induction false} SplitLeavesNone(s: string, sep: char, i: nat)
    requires i < |Split(s, sep)|
    ensures sep !in Split(s, sep)[i]
    decreases |s|
  {
    if s != [] {
      if s[0] != sep {
        SplitLeavesNone(s[1..], sep, i);
      } else if i > 0 {
        SplitLeavesNone(s[1..], sep, i - 1);
      }
    }
  }

  /** Splitting loses nothing, cuts at every separator and leaves none. */
  lemma SplitSpec(s: string, sep: char)
    ensures Join(Split(s, sep), [sep]) == s
    ensures |Split(s, sep)| == Count(s, sep) + 1
    ensures forall i :: 0 <= i < |Split(s, sep)| ==> sep !in Split(s, sep)[i]
  {
    JoinUndoesSplit(s, sep);
    SplitCount(s, sep);
    forall i | 0 <= i < |Split(s, sep)|
      ensures sep !in Split(s, sep)[i]
    {
      SplitLeavesNone(s, sep, i);
    }
  }

  lemma {:induction false} SplitNone(s: string, sep: char)
    requires sep !in s
    ensures Split(s, sep) == [s]
  {
    if s != [] {
      SplitNone(s[1..], sep);
      assert s == [s[0]] + s[1..];
    }
  }

  lemma {:induction false} SplitCons(a: string, rest: string, sep: char)
    requires sep !in a
    ensures Split(a + [sep] + rest, sep) == [a] + Split(rest, sep)
  {
    var s := a + [sep] + rest;
    if a == [] {
      assert s[1..] == rest;
    } else {
      SplitCons(a[1..], rest, sep);
      assert s[1..] == a[1..] + [sep] + rest;
      assert a == [a[0]] + a[1..];
    }
  }

  /** Characters of the parts are characters of the whole. */
  lemma PartOf(s: string, sep: char, i: nat, c: char)
    requires i < |Split(s, sep)| && c !in s
    ensures c !in Split(s, sep)[i]
    decreases |s|
  {
    if s != [] {
      var rest := Split(s[1..], sep);
      if s[0] == sep {
        if i > 0 { PartOf(s[1..], sep, i - 1, c); }
      } else {
        PartOf(s[1..], sep, i, c);
      }
    }
  }
}
