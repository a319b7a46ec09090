/** Binlog coordinates: the file suffix and the zero-padded offset are glued
    together and read back as one unsigned 64-bit number. */
module Coordinates {
  import opened Prelude

  const MAX_UINT64: nat := 0xFFFF_FFFF_FFFF_FFFF
  const OFFSET_DIGITS: nat := 12

  predicate IsDigit(c: char) { '0' <= c <= '9' }

  predicate AllDigits(s: string) { forall i :: 0 <= i < |s| ==> IsDigit(s[i]) }

  function Digit(c: char): nat
    requires IsDigit(c)
  {
    c as int - '0' as int
  }

  /** The number a string of decimal digits denotes; the empty string denotes 0. */
  function Value(s: string): nat
    requires AllDigits(s)
  {
    if s == "" then 0 else 10 * Value(s[..|s| - 1]) + Digit(s[|s| - 1])
  }

  function Pow10(n: nat): (p: nat)
    ensures p >= 1
  {
    if n == 0 then 1 else 10 * Pow10(n - 1)
  }

  /** The offset with zeros put in front until it has twelve characters. */
  function Padded(p: string): (r: string)
    ensures |r| == Max(|p|, OFFSET_DIGITS)
    ensures AllDigits(p) ==> AllDigits(r)
    decreases OFFSET_DIGITS - |p|
  {
    if |p| < OFFSET_DIGITS then Padded("0" + p) else p
  }

  /** strconv.ParseUint(s, 10, 64) with the error thrown away: a character that is no
      digit gives 0, a number that does not fit gives the largest uint64. */
  function ParseUint(s: string): nat {
    if s == "" then 0 else ParseFrom(s, 0, 0)
  }

  function ParseFrom(s: string, i: nat, n: nat): nat
    requires i <= |s|
    decreases |s| - i
  {
    if i == |s| then n
    else if !IsDigit(s[i]) then 0
    else if 10 * n + Digit(s[i]) > MAX_UINT64 then MAX_UINT64
    else ParseFrom(s, i + 1, 10 * n + Digit(s[i]))
  }

  /** The packed position of a coordinate whose file name contains a dot. */
  function Packed(logfile: string, offset: string): nat
    requires '.' in logfile
  {
    ParseUint(Split(logfile, '.')[1] + Padded(offset))
  }

  method PadOffset(offset: string) returns (padded: string)
    ensures padded == Padded(offset)
  {
    padded := offset;
    while |padded| < OFFSET_DIGITS
      invariant Padded(padded) == Padded(offset)
      decreases OFFSET_DIGITS - |padded|
    {
      padded := "0" + padded;
    }
  }

  method ParseDecimal(s: string) returns (n: nat)
    ensures n == ParseUint(s)
  {
    if s == "" {
      return 0;
    }
    n := 0;
    for i := 0 to |s|
      invariant ParseUint(s) == ParseFrom(s, i, n)
    {
      if !IsDigit(s[i]) {
        return 0;
      }
      if 10 * n + Digit(s[i]) > MAX_UINT64 {
        return MAX_UINT64;
      }
      n := 10 * n + Digit(s[i]);
    }
  }

  method ReadCoordinate(logfile: string, offset: string) returns (pos: Option<nat>)
    ensures pos == if '.' in logfile then Some(Packed(logfile, offset)) else None
  {
    if '.' !in logfile {
      return None;
    }
    var padded := PadOffset(offset);
    var n := ParseDecimal(Split(logfile, '.')[1] + padded);
    pos := Some(n);
  }

  lemma Regroup(a: nat, p: nat, b: nat, d: nat)
    ensures 10 * (a * p + b) + d == a * (10 * p) + (10 * b + d)
  {
  }

  lemma {:induction false} ValueAppend(a: string, b: string)
    requires AllDigits(a) && AllDigits(b)
    ensures AllDigits(a + b)
    ensures Value(a + b) == Value(a) * Pow10(|b|) + Value(b)
  {
    if b == "" {
      assert a + b == a;
    } else {
      var b' := b[..|b| - 1];
      ValueAppend(a, b');
      assert (a + b)[..|a + b| - 1] == a + b';
      Regroup(Value(a), Pow10(|b'|), Value(b'), Digit(b[|b| - 1]));
    }
  }

  lemma {:induction false} ValueBound(s: string)
    requires AllDigits(s)
    ensures Value(s) < Pow10(|s|)
  {
    if s != "" {
      ValueBound(s[..|s| - 1]);
    }
  }

  lemma {:induction false} PaddedValue(p: string)
    requires AllDigits(p)
    ensures Value(Padded(p)) == Value(p)
    decreases OFFSET_DIGITS - |p|
  {
    if |p| < OFFSET_DIGITS {
      ValueAppend("0", p);
      assert Value("0") == 0;
      PaddedValue("0" + p);
    }
  }

  lemma {:induction false} PrefixBound(s: string, i: nat)
    requires AllDigits(s) && i <= |s|
    ensures Value(s[..i]) <= Value(s)
    decreases |s|
  {
    if i == |s| {
      assert s[..i] == s;
    } else {
      PrefixBound(s[..|s| - 1], i);
      assert s[..|s| - 1][..i] == s[..i];
    }
  }

  /** How many digits a string starts with. */
  function Leading(s: string): (n: nat)
    ensures n <= |s| && AllDigits(s[..n]) && (n < |s| ==> !IsDigit(s[n]))
  {
    if s == "" || !IsDigit(s[0]) then 0 else 1 + Leading(s[1..])
  }

  /** What the scan makes of a string: the cap as soon as the digits read exceed it, 0 at the first character that is
      no digit, else the value. */
  function Scanned(s: string): nat {
    var n := Leading(s);
    if Value(s[..n]) > MAX_UINT64 then MAX_UINT64 else if n < |s| then 0 else Value(s[..n])
  }

  lemma {:induction false} ParseFromLeading(s: string, i: nat)
    requires i <= Leading(s) && AllDigits(s[..i]) && Value(s[..i]) <= MAX_UINT64
    ensures ParseFrom(s, i, Value(s[..i])) == Scanned(s)
    decreases |s| - i
  {
    if i < Leading(s) {
      assert IsDigit(s[i]) by {
        assert s[..Leading(s)][i] == s[i];
      }
      assert s[..i + 1][..i] == s[..i];
      assert 10 * Value(s[..i]) + Digit(s[i]) == Value(s[..i + 1]);
      if Value(s[..i + 1]) > MAX_UINT64 {
        PrefixBound(s[..Leading(s)], i + 1);
        assert s[..Leading(s)][..i + 1] == s[..i + 1];
      } else {
        ParseFromLeading(s, i + 1);
      }
    }
  }

  lemma ParseScans(s: string)
    ensures ParseUint(s) == Scanned(s)
  {
    assert s[..0] == "";
    if s != "" {
      ParseFromLeading(s, 0);
    }
  }

  lemma ParseDigits(s: string)
    requires AllDigits(s)
    ensures ParseUint(s) == Min(Value(s), MAX_UINT64)
  {
    ParseScans(s);
    assert Leading(s) == |s|;
    assert s[..|s|] == s;
  }

  /** The number a coordinate stands for, before the 64-bit cap. */
  function Exact(suffix: string, offset: string): nat
    requires AllDigits(suffix) && AllDigits(offset)
  {
    Value(suffix) * Pow10(Max(|offset|, OFFSET_DIGITS)) + Value(offset)
  }

  /** Closed form of the packed position, for every decimal suffix and offset of any length. */
  lemma PackedValue(base: string, suffix: string, offset: string)
    requires '.' !in base && AllDigits(suffix) && AllDigits(offset)
    ensures '.' in base + "." + suffix
    ensures Packed(base + "." + suffix, offset) == Min(Exact(suffix, offset), MAX_UINT64)
  {
    SplitAt(base, '.', suffix);
    SplitWhole(suffix, '.');
    assert (base + "." + suffix)[|base|] == '.';
    var p := Padded(offset);
    ValueAppend(suffix, p);
    PaddedValue(offset);
    ParseDigits(suffix + p);
  }

  predicate Earlier(file: nat, pos: nat, file': nat, pos': nat) {
    file < file' || (file == file' && pos < pos')
  }

  lemma {:induction false} PowMonotone(a: nat, b: nat)
    requires a <= b
    ensures Pow10(a) <= Pow10(b)
  {
    if a < b {
      PowMonotone(a, b - 1);
    }
  }

  lemma {:induction false} NextFile(f: nat, f': nat, w: nat)
    requires f < f'
    ensures f * w + w <= f' * w
  {
    assert (f' - 1) * w + w == f' * w;
    if f + 1 < f' {
      NextFile(f, f' - 1, w);
    }
  }

  /** With offsets of at most twelve digits, an earlier coordinate has a smaller exact value. */
  lemma ExactOrder(s: string, p: string, s': string, p': string)
    requires AllDigits(s) && AllDigits(p) && AllDigits(s') && AllDigits(p')
    requires |p| <= OFFSET_DIGITS && |p'| <= OFFSET_DIGITS
    requires Earlier(Value(s), Value(p), Value(s'), Value(p'))
    ensures Exact(s, p) < Exact(s', p')
  {
    var w := Pow10(OFFSET_DIGITS);
    ValueBound(p);
    PowMonotone(|p|, OFFSET_DIGITS);
    if Value(s) < Value(s') {
      NextFile(Value(s), Value(s'), w);
    }
  }

  lemma ExactIsLexicographic(s: string, p: string, s': string, p': string)
    requires AllDigits(s) && AllDigits(p) && AllDigits(s') && AllDigits(p')
    requires |p| <= OFFSET_DIGITS && |p'| <= OFFSET_DIGITS
    ensures Exact(s, p) < Exact(s', p') <==> Earlier(Value(s), Value(p), Value(s'), Value(p'))
  {
    if Earlier(Value(s), Value(p), Value(s'), Value(p')) {
      ExactOrder(s, p, s', p');
    } else if Earlier(Value(s'), Value(p'), Value(s), Value(p)) {
      ExactOrder(s', p', s, p);
    }
  }

  /** Offsets of at most twelve digits: packing never reverses the order of two coordinates,
      and keeps them apart exactly as long as the earlier one lies below the 64-bit cap. */
  lemma PackedOrder(base: string, s: string, p: string, base': string, s': string, p': string)
    requires '.' !in base && '.' !in base'
    requires AllDigits(s) && AllDigits(p) && AllDigits(s') && AllDigits(p')
    requires |p| <= OFFSET_DIGITS && |p'| <= OFFSET_DIGITS
    requires Earlier(Value(s), Value(p), Value(s'), Value(p'))
    ensures '.' in base + "." + s && '.' in base' + "." + s'
    ensures Packed(base + "." + s, p) <= Packed(base' + "." + s', p')
    ensures Packed(base + "." + s, p) < Packed(base' + "." + s', p') <==> Exact(s, p) < MAX_UINT64
  {
    PackedValue(base, s, p);
    PackedValue(base', s', p');
    ExactOrder(s, p, s', p');
  }

  /** Below the cap the packed numbers compare exactly as (file, offset) do. */
  lemma PackedIsLexicographic(base: string, s: string, p: string, base': string, s': string, p': string)
    requires '.' !in base && '.' !in base'
    requires AllDigits(s) && AllDigits(p) && AllDigits(s') && AllDigits(p')
    requires |p| <= OFFSET_DIGITS && |p'| <= OFFSET_DIGITS
    requires Exact(s, p) <= MAX_UINT64 && Exact(s', p') <= MAX_UINT64
    ensures '.' in base + "." + s && '.' in base' + "." + s'
    ensures Packed(base + "." + s, p) < Packed(base' + "." + s', p')
            <==> Earlier(Value(s), Value(p), Value(s'), Value(p'))
  {
    ExactIsLexicographic(s, p, s', p');
    PackedExact(base, s, p);
    PackedExact(base', s', p');
  }

  lemma PackedExact(base: string, s: string, p: string)
    requires '.' !in base && AllDigits(s) && AllDigits(p) && Exact(s, p) <= MAX_UINT64
    ensures '.' in base + "." + s && Packed(base + "." + s, p) == Exact(s, p)
  {
    PackedValue(base, s, p);
  }

  lemma TenToTheTwelve()
    ensures Pow10(12) == 1_000_000_000_000 && Pow10(13) == 10_000_000_000_000
  {
    assert Pow10(4) == 10_000;
    assert Pow10(8) == 10_000 * Pow10(4);
    assert Pow10(12) == 10_000 * Pow10(8);
  }

  /** Two coordinates with offsets of at most w digits and exact values that fit: the earlier one packs smaller. */
  ghost predicate KeepsOrder(base: string, w: nat, s: string, p: string, s': string, p': string)
    requires '.' !in base
  {
    && AllDigits(s) && AllDigits(p) && AllDigits(s') && AllDigits(p') && |p| <= w && |p'| <= w
    && Exact(s, p) <= MAX_UINT64 && Exact(s', p') <= MAX_UINT64
    && Earlier(Value(s), Value(p), Value(s'), Value(p'))
    ==> && '.' in base + "." + s && '.' in base + "." + s'
        && Packed(base + "." + s, p) < Packed(base + "." + s', p')
  }

  /** Every thirteen-digit offset in file 1 is ranked after the start of file 2. */
  lemma LongOffsetReversesOrder(base: string, offset: string)
    requires '.' !in base && AllDigits(offset) && |offset| == 13
    ensures Earlier(Value("1"), Value(offset), Value("2"), Value("0"))
    ensures Exact("1", offset) <= MAX_UINT64 && Exact("2", "0") <= MAX_UINT64
    ensures '.' in base + "." + "1" && '.' in base + "." + "2"
    ensures Packed(base + "." + "2", "0") < Packed(base + "." + "1", offset)
  {
    assert Value("1") == 1 && Value("2") == 2 && Value("0") == 0;
    TenToTheTwelve();
    ValueBound(offset);
    PackedValue(base, "1", offset);
    PackedValue(base, "2", "0");
  }

  /** Among offsets of at most w digits packing keeps every two coordinates that fit in order if and only if w is at
      most twelve. */
  lemma OffsetWidthIff(base: string, w: nat)
    requires '.' !in base
    ensures (forall s, p, s', p' :: KeepsOrder(base, w, s, p, s', p')) <==> w <= OFFSET_DIGITS
  {
    if w <= OFFSET_DIGITS {
      forall s, p, s', p' ensures KeepsOrder(base, w, s, p, s', p') {
        if && AllDigits(s) && AllDigits(p) && AllDigits(s') && AllDigits(p') && |p| <= w && |p'| <= w
           && Exact(s, p) <= MAX_UINT64 && Exact(s', p') <= MAX_UINT64
           && Earlier(Value(s), Value(p), Value(s'), Value(p'))
        {
          PackedOrder(base, s, p, base, s', p');
          ExactOrder(s, p, s', p');
        }
      }
    } else {
      var offset := "1000000000000";
      LongOffsetReversesOrder(base, offset);
      assert AllDigits("1") && AllDigits("2") && AllDigits("0");
      assert !KeepsOrder(base, w, "1", offset, "2", "0");
    }
  }

  lemma LeadingAppend(a: string, b: string)
    requires AllDigits(b)
    ensures Leading(a + b) == if Leading(a) < |a| then Leading(a) else |a + b|
  {
    var t, n := a + b, Leading(a);
    if n < |a| {
      assert t[n] == a[n];
      forall i | 0 <= i < n ensures IsDigit(t[i]) {
        assert a[..n][i] == t[i];
      }
      LeadingUnique(t, n);
    } else {
      assert a[..|a|] == a;
      LeadingUnique(t, |t|);
    }
  }

  lemma LeadingUnique(s: string, n: nat)
    requires n <= |s| && (forall i :: 0 <= i < n ==> IsDigit(s[i])) && (n < |s| ==> !IsDigit(s[n]))
    ensures Leading(s) == n
  {
    assert forall i :: 0 <= i < Leading(s) ==> s[i] == s[..Leading(s)][i];
  }

  /** With two or more dots in the name only the part after the first one is read: the position is 0 exactly when that
      part holds a character that is no digit before its digits exceed the cap, or reads as 0 with offset 0. */
  lemma TwoDotsLoseThePosition(base: string, middle: string, suffix: string, offset: string)
    requires '.' !in base && '.' !in middle && AllDigits(offset)
    ensures '.' in base + "." + (middle + "." + suffix)
    ensures Packed(base + "." + (middle + "." + suffix), offset) == 0
            <==> var n := Leading(middle);
                 if n < |middle| then Value(middle[..n]) <= MAX_UINT64
                 else Value(middle[..n]) == 0 && Value(offset) == 0
  {
    SplitAt(base, '.', middle + "." + suffix);
    SplitAt(middle, '.', suffix);
    assert (base + "." + (middle + "." + suffix))[|base|] == '.';
    assert Split(base + "." + (middle + "." + suffix), '.')[1] == middle;
    ScannedZero(middle, Padded(offset));
    PaddedValue(offset);
  }

  lemma ScannedZero(middle: string, p: string)
    requires AllDigits(p) && p != ""
    ensures ParseUint(middle + p) == 0
            <==> var n := Leading(middle);
                 if n < |middle| then Value(middle[..n]) <= MAX_UINT64 else Value(middle[..n]) == 0 && Value(p) == 0
  {
    if Leading(middle) < |middle| {
      ScannedStops(middle, p);
    } else {
      assert middle[..|middle|] == middle;
      ValueAppendZero(middle, p);
      ParseDigits(middle + p);
    }
  }

  lemma ScannedStops(middle: string, p: string)
    requires AllDigits(p) && Leading(middle) < |middle|
    ensures ParseUint(middle + p) == 0 <==> Value(middle[..Leading(middle)]) <= MAX_UINT64
  {
    ParseScans(middle + p);
    LeadingAppend(middle, p);
    assert (middle + p)[..Leading(middle)] == middle[..Leading(middle)];
  }

  lemma ValueAppendZero(a: string, b: string)
    requires AllDigits(a) && AllDigits(b)
    ensures AllDigits(a + b)
    ensures Value(a + b) == 0 <==> Value(a) == 0 && Value(b) == 0
  {
    ValueAppend(a, b);
    ProductPositive(Value(a), Pow10(|b|));
  }

  lemma ProductPositive(a: nat, b: nat)
    requires b > 0
    ensures a * b == 0 <==> a == 0
  {
  }
}
