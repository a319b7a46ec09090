/** Small facts about options and sequences shared by the other modules. */
module Prelude {

  datatype Option<+T> = None | Some(value: T)

  /** No element occurs twice. */
  ghost predicate Distinct<T>(s: seq<T>) {
    forall i, j :: 0 <= i < j < |s| ==> s[i] != s[j]
  }

  function Min(a: int, b: int): int { if a <= b then a else b }

  function Max(a: int, b: int): int { if a <= b then b else a }

  /** The elements of a sequence, as a multiset, with one position taken out. */
  lemma MultisetWithout<T>(s: seq<T>, k: nat)
    requires k < |s|
    ensures multiset(s) == multiset(s[..k] + s[k + 1..]) + multiset{s[k]}
  {
    assert s == s[..k] + [s[k]] + s[k + 1..];
  }

  /** Distinctness only depends on how often each element occurs. */
  lemma DistinctMultiset<T>(s: seq<T>)
    ensures Distinct(s) <==> forall x :: x in multiset(s) ==> multiset(s)[x] == 1
  {
    if Distinct(s) {
      forall x | x in multiset(s) ensures multiset(s)[x] == 1 {
        var k :| 0 <= k < |s| && s[k] == x;
        MultisetWithout(s, k);
        assert x !in s[..k] + s[k + 1..];
      }
    } else {
      var i, j :| 0 <= i < j < |s| && s[i] == s[j];
      MultisetWithout(s, j);
      assert (s[..j] + s[j + 1..])[i] == s[i];
      assert s[i] in multiset(s[..j] + s[j + 1..]);
      assert multiset(s)[s[i]] >= 2;
    }
  }

  /** strings.Split on a one-character separator. */
  function Split(s: string, sep: char): (parts: seq<string>)
    ensures |parts| >= 1
    ensures sep in s <==> |parts| >= 2
    ensures forall i :: 0 <= i < |parts| ==> sep !in parts[i]
  {
    if s == "" then [""]
    else
      var rest := Split(s[1..], sep);
      assert s == [s[0]] + s[1..];
      if s[0] == sep then [""] + rest else [[s[0]] + rest[0]] + rest[1..]
  }

  /** A base name without the separator is the first part; what follows it is split on. */
  lemma {:induction false} SplitAt(base: string, sep: char, rest: string)
    requires sep !in base
    ensures Split(base + [sep] + rest, sep) == [base] + Split(rest, sep)
  {
    var s := base + [sep] + rest;
    if base == "" {
      assert s[1..] == rest;
    } else {
      assert s[1..] == base[1..] + [sep] + rest;
      SplitAt(base[1..], sep, rest);
      assert base == [base[0]] + base[1..];
    }
  }

  lemma {:induction false} SplitWhole(s: string, sep: char)
    requires sep !in s
    ensures Split(s, sep) == [s]
  {
    if s != "" {
      SplitWhole(s[1..], sep);
      assert s == [s[0]] + s[1..];
    }
  }
}
