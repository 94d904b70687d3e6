/** Values shared by every module. */
module Common {
  datatype Option<+T> = None | Some(value: T)

  /** The error values of internal/domain/errors.go that the modelled code returns,
      plus the kinds of failure it reports without a sentinel. */
  datatype Error = NotFound | Conflict | InvalidState | Upstream | Malformed | ContextDone | Io

  datatype Result<+T> = Ok(value: T) | Err(error: Error)

  function Min(a: int, b: int): int { if a < b then a else b }

  function Max(a: int, b: int): int { if a < b then b else a }

  ghost predicate Distinct<T>(s: seq<T>) {
    forall i, j :: 0 <= i < j < |s| ==> s[i] != s[j]
  }

  /** The places of the elements that `p` is true of. */
  ghost function Places<T>(p: T -> bool, s: seq<T>): set<int> { set i | 0 <= i < |s| && p(s[i]) }

  lemma PlacesGrow<T>(p: T -> bool, s: seq<T>, x: T)
    ensures |Places(p, s + [x])| == |Places(p, s)| + if p(x) then 1 else 0
  {
    var all, before := Places(p, s + [x]), Places(p, s);
    assert all == before + if p(x) then {|s|} else {};
  }
}

/** Go's `<` on strings: byte-wise lexicographic order. */
module StringOrder {
  predicate Less(a: string, b: string) {
    b != "" && (a == "" || a[0] < b[0] || (a[0] == b[0] && Less(a[1..], b[1..])))
  }

  lemma {:induction false} Irreflexive(a: string)
    ensures !Less(a, a)
  {
    if a != "" { Irreflexive(a[1..]); }
  }

  lemma {:induction false} Trichotomy(a: string, b: string)
    ensures Less(a, b) || Less(b, a) || a == b
  {
    if a != "" && b != "" && a[0] == b[0] {
      Trichotomy(a[1..], b[1..]);
      if a[1..] == b[1..] {
        assert a == [a[0]] + a[1..] && b == [b[0]] + b[1..];
      }
    }
  }

  lemma {:induction false} Transitive(a: string, b: string, c: string)
    requires Less(a, b) && Less(b, c)
    ensures Less(a, c)
  {
    if a != "" && a[0] == b[0] && b[0] == c[0] {
      Transitive(a[1..], b[1..], c[1..]);
    }
  }

  /** `a` and `b` agree before `k`, where `a` ends or has the smaller byte. */
  predicate DiffersAt(a: string, b: string, k: int) {
    0 <= k <= |a| && k < |b| && a[..k] == b[..k] && (k == |a| || a[k] < b[k])
  }

  /** Told by positions: the smaller string is a proper prefix, or has the smaller byte where they first differ. */
  lemma {:induction false} LessIsBytewise(a: string, b: string)
    ensures Less(a, b) <==> exists k :: DiffersAt(a, b, k)
  {
    if b != "" {
      if a == "" || a[0] < b[0] {
        assert DiffersAt(a, b, 0);
      } else {
        if a[0] == b[0] { LessIsBytewise(a[1..], b[1..]); }
        forall k | DiffersAt(a, b, k)
          ensures k > 0 && a[0] == b[0] && DiffersAt(a[1..], b[1..], k - 1)
        {
          assert k > 0 ==> a[..k][0] == a[0] && b[..k][0] == b[0] && a[..k][1..] == a[1..][..k - 1] && b[..k][1..] == b[1..][..k - 1];
        }
        forall k | a[0] == b[0] && DiffersAt(a[1..], b[1..], k)
          ensures DiffersAt(a, b, k + 1)
        {
          assert a[..k + 1] == [a[0]] + a[1..][..k] && b[..k + 1] == [b[0]] + b[1..][..k];
        }
      }
    }
  }

  lemma Asymmetric(a: string, b: string)
    requires Less(a, b)
    ensures !Less(b, a)
  {
    if Less(b, a) {
      Transitive(a, b, a);
      Irreflexive(a);
    }
  }
}

/** Comparing field by field, as the comparators of the list readers do. */
module FieldOrder {
  import StringOrder

  predicate Less(a: seq<string>, b: seq<string>)
    requires |a| == |b|
  {
    a != [] && (StringOrder.Less(a[0], b[0]) || (a[0] == b[0] && Less(a[1..], b[1..])))
  }

  /** The first field decides, or the rest does. */
  lemma FromField(a: string, rest: seq<string>, b: string, more: seq<string>)
    requires |rest| == |more|
    ensures Less([a] + rest, [b] + more) <==> if a != b then StringOrder.Less(a, b) else Less(rest, more)
  {
    assert ([a] + rest)[1..] == rest && ([b] + more)[1..] == more;
    StringOrder.Irreflexive(a);
  }

  lemma {:induction false} Irreflexive(a: seq<string>)
    ensures !Less(a, a)
  {
    if a != [] {
      StringOrder.Irreflexive(a[0]);
      Irreflexive(a[1..]);
    }
  }

  lemma {:induction false} Trichotomy(a: seq<string>, b: seq<string>)
    requires |a| == |b|
    ensures Less(a, b) || Less(b, a) || a == b
  {
    if a != [] {
      StringOrder.Trichotomy(a[0], b[0]);
      Trichotomy(a[1..], b[1..]);
      assert a == [a[0]] + a[1..] && b == [b[0]] + b[1..];
    }
  }

  lemma {:induction false} Transitive(a: seq<string>, b: seq<string>, c: seq<string>)
    requires |a| == |b| == |c| && Less(a, b) && Less(b, c)
    ensures Less(a, c)
  {
    if StringOrder.Less(a[0], b[0]) && StringOrder.Less(b[0], c[0]) {
      StringOrder.Transitive(a[0], b[0], c[0]);
    } else if a[0] == b[0] == c[0] {
      Transitive(a[1..], b[1..], c[1..]);
    }
  }

  /** So it is a strict weak order: what is not less one way round either way is equal. */
  lemma NotLessIsTransitive(a: seq<string>, b: seq<string>, c: seq<string>)
    requires |a| == |b| == |c| && !Less(a, b) && !Less(b, c)
    ensures !Less(a, c)
  {
    Trichotomy(a, b);
    Trichotomy(b, c);
    if Less(b, a) && Less(c, b) {
      Transitive(c, b, a);
      if Less(a, c) {
        Transitive(a, c, a);
        Irreflexive(a);
      }
    }
  }
}

/** What `sort.Slice` promises: a permutation with no adjacent inversion, unique when the
    comparator never ties. */
module Sorting {
  import opened Common

  ghost predicate Sorted<T(!new)>(less: (T, T) -> bool, s: seq<T>) {
    forall i, j :: 0 <= i < j < |s| ==> !less(s[j], s[i])
  }

  /** The comparator is a strict order on the elements of `s`. */
  ghost predicate StrictOrder<T(!new)>(less: (T, T) -> bool, s: seq<T>) {
    && (forall x :: x in s ==> !less(x, x))
    && (forall x, y, z :: x in s && y in s && z in s && less(x, y) && less(y, z) ==> less(x, z))
    && (forall x, y, z :: x in s && y in s && z in s && !less(x, y) && !less(y, z) ==> !less(x, z))
  }

  ghost predicate NoTies<T(!new)>(less: (T, T) -> bool, s: seq<T>) {
    forall x, y :: x in s && y in s && x != y ==> less(x, y) || less(y, x)
  }

  function Insert<T>(less: (T, T) -> bool, x: T, s: seq<T>): seq<T> {
    if s == [] || less(x, s[0]) then [x] + s else [s[0]] + Insert(less, x, s[1..])
  }

  function Sort<T>(less: (T, T) -> bool, s: seq<T>): seq<T> {
    if s == [] then [] else Insert(less, s[0], Sort(less, s[1..]))
  }

  lemma {:induction false} InsertIsPermutation<T>(less: (T, T) -> bool, x: T, s: seq<T>)
    ensures multiset(Insert(less, x, s)) == multiset(s) + multiset{x}
  {
    if s != [] && !less(x, s[0]) {
      InsertIsPermutation(less, x, s[1..]);
      assert s == [s[0]] + s[1..];
    }
  }

  lemma {:induction false} SortIsPermutation<T>(less: (T, T) -> bool, s: seq<T>)
    ensures multiset(Sort(less, s)) == multiset(s)
    ensures |Sort(less, s)| == |s|
  {
    if s != [] {
      SortIsPermutation(less, s[1..]);
      InsertIsPermutation(less, s[0], Sort(less, s[1..]));
      assert s == [s[0]] + s[1..];
    }
    assert |multiset(Sort(less, s))| == |multiset(s)|;
  }

  lemma {:induction false} InsertKeepsSorted<T(!new)>(less: (T, T) -> bool, x: T, s: seq<T>)
    requires Sorted(less, s) && StrictOrder(less, [x] + s)
    ensures Sorted(less, Insert(less, x, s))
  {
    if s == [] {
    } else if less(x, s[0]) {
      assert s[0] in [x] + s;
    } else {
      assert forall y :: y in [x] + s[1..] ==> y in [x] + s;
      InsertKeepsSorted(less, x, s[1..]);
      InsertIsPermutation(less, x, s[1..]);
      var t := Insert(less, x, s[1..]);
      forall j | 0 <= j < |t|
        ensures !less(t[j], s[0])
      {
        assert t[j] in multiset(t);
      }
    }
  }

  lemma {:induction false} SortSorts<T(!new)>(less: (T, T) -> bool, s: seq<T>)
    requires StrictOrder(less, s)
    ensures Sorted(less, Sort(less, s))
  {
    if s != [] {
      SortSorts(less, s[1..]);
      SortIsPermutation(less, s[1..]);
      var t := Sort(less, s[1..]);
      forall y | y in [s[0]] + t
        ensures y in s
      {
        if y in t { assert y in multiset(t); }
      }
      InsertKeepsSorted(less, s[0], t);
    }
  }

  lemma SameHead<T(!new)>(less: (T, T) -> bool, a: seq<T>, b: seq<T>)
    requires a != [] && b != [] && a[0] in b && b[0] in a
    requires Sorted(less, a) && Sorted(less, b) && NoTies(less, a)
    ensures a[0] == b[0]
  {
    var i :| 0 <= i < |a| && a[i] == b[0];
    var j :| 0 <= j < |b| && b[j] == a[0];
  }

  lemma SameMembers<T>(a: seq<T>, b: seq<T>)
    requires multiset(a) == multiset(b)
    ensures |a| == |b| && forall x :: x in a ==> x in b
  {
    assert |multiset(a)| == |multiset(b)|;
    forall x | x in a
      ensures x in b
    {
      assert x in multiset(b);
    }
  }

  lemma {:induction false} AtMostOnce<T>(s: seq<T>, x: T)
    requires Distinct(s)
    ensures multiset(s)[x] <= 1
  {
    if s != [] {
      var init, last := s[..|s| - 1], s[|s| - 1];
      assert s == init + [last];
      AtMostOnce(init, x);
      assert last !in init;
    }
  }

  /** Distinct elements of `b`, as many as `b` has, are all of `b`. */
  lemma AllOfThem<T>(a: seq<T>, b: seq<T>)
    requires Distinct(a) && |a| == |b| && forall x :: x in a ==> x in b
    ensures multiset(a) == multiset(b)
  {
    forall x: T
      ensures multiset(a)[x] <= multiset(b)[x]
    {
      AtMostOnce(a, x);
      if x in a { assert x in b; }
    }
    assert multiset(a) <= multiset(b) && |multiset(b) - multiset(a)| == 0;
  }

  lemma AtLeastTwice<T>(s: seq<T>, i: nat, j: nat)
    requires i < j < |s| && s[i] == s[j]
    ensures multiset(s)[s[i]] >= 2
  {
    assert s == s[..j] + s[j..] && s[i] in s[..j] && s[j] in s[j..];
  }

  function Without<T>(s: seq<T>, i: nat): (r: seq<T>)
    requires i < |s|
    ensures |r| == |s| - 1
  {
    s[..i] + s[i + 1..]
  }

  lemma WithoutCounts<T>(s: seq<T>, i: nat)
    requires i < |s|
    ensures multiset(Without(s, i)) == multiset(s) - multiset{s[i]}
  {
    assert s == s[..i] + [s[i]] + s[i + 1..];
  }

  lemma SameWithout<T>(a: seq<T>, i: nat, b: seq<T>, j: nat)
    requires i < |a| && j < |b| && a[i] == b[j] && multiset(a) == multiset(b)
    ensures multiset(Without(a, i)) == multiset(Without(b, j))
  {
    WithoutCounts(a, i);
    WithoutCounts(b, j);
  }

  lemma SameTail<T>(a: seq<T>, b: seq<T>)
    requires multiset(a) == multiset(b) && a != [] && b != [] && a[0] == b[0]
    ensures multiset(a[1..]) == multiset(b[1..])
  {
    assert a == [a[0]] + a[1..] && b == [b[0]] + b[1..];
    assert multiset(a[1..]) == multiset(a) - multiset{a[0]};
    assert multiset(b[1..]) == multiset(b) - multiset{b[0]};
  }

  lemma TailIsSorted<T(!new)>(less: (T, T) -> bool, s: seq<T>)
    requires s != [] && Sorted(less, s)
    ensures Sorted(less, s[1..])
  {
  }

  /** Without ties, two sorted permutations of the same elements are the same sequence. */
  lemma {:induction false} SortedIsUnique<T(!new)>(less: (T, T) -> bool, a: seq<T>, b: seq<T>)
    requires multiset(a) == multiset(b)
    requires Sorted(less, a) && Sorted(less, b) && NoTies(less, a)
    ensures a == b
  {
    SameMembers(a, b);
    SameMembers(b, a);
    if a != [] {
      SameHead(less, a, b);
      SameTail(a, b);
      TailIsSorted(less, a);
      TailIsSorted(less, b);
      assert forall x :: x in a[1..] ==> x in a;
      SortedIsUnique(less, a[1..], b[1..]);
      assert a == [a[0]] + a[1..] && b == [b[0]] + b[1..];
    }
  }
}

/** Unsigned decimal numerals without leading zeros. */
module Decimal {
  predicate IsDigit(c: char) { '0' <= c <= '9' }

  predicate AllDigits(s: string) { forall i :: 0 <= i < |s| ==> IsDigit(s[i]) }

  predicate Canonical(s: string) { s != "" && AllDigits(s) && (|s| > 1 ==> s[0] != '0') }

  function DigitValue(c: char): nat
    requires IsDigit(c)
  {
    c as int - '0' as int
  }

  function DigitChar(n: nat): char
    requires n < 10
  {
    ('0' as int + n) as char
  }

  function Value(s: string): nat
    requires AllDigits(s)
  {
    if s == "" then 0 else 10 * Value(s[..|s| - 1]) + DigitValue(s[|s| - 1])
  }

  function Format(n: nat): string {
    if n < 10 then [DigitChar(n)] else Format(n / 10) + [DigitChar(n % 10)]
  }

  lemma {:induction false} FormatIsCanonical(n: nat)
    ensures Canonical(Format(n)) && Value(Format(n)) == n
    ensures n > 0 ==> Format(n)[0] != '0'
  {
    if n >= 10 {
      FormatIsCanonical(n / 10);
      assert Format(n)[..|Format(n)| - 1] == Format(n / 10);
    }
  }

  lemma {:induction false} CanonicalIsFormatted(s: string)
    requires Canonical(s)
    ensures Format(Value(s)) == s
    ensures s[0] != '0' ==> Value(s) > 0
  {
    var init := s[..|s| - 1];
    if |s| == 1 {
      assert Value(init) == 0;
    } else {
      CanonicalIsFormatted(init);
      assert s == init + [s[|s| - 1]];
    }
  }

  function Power(k: nat): nat { if k == 0 then 1 else 10 * Power(k - 1) }

  lemma {:induction false} PowerGrows(j: nat, k: nat)
    requires j <= k
    ensures 0 < Power(j) <= Power(k)
    decreases k
  {
    if 0 < j { PowerGrows(j - 1, k - 1); } else if k > 0 { PowerGrows(0, k - 1); }
  }

  lemma {:induction false} LongNumeralIsLarge(s: string)
    requires s != "" && AllDigits(s) && s[0] != '0'
    ensures Value(s) >= Power(|s| - 1)
  {
    if |s| > 1 {
      LongNumeralIsLarge(s[..|s| - 1]);
    }
  }

  /** A numeral of a number below 10^k has at most k digits. */
  lemma NumeralIsShort(s: string, k: nat)
    requires Canonical(s) && Value(s) < Power(k) && k > 0
    ensures |s| <= k
  {
    if |s| > k {
      LongNumeralIsLarge(s);
      PowerGrows(k, |s| - 1);
    }
  }
}
