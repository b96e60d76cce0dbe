/**
 The canonical form behind the request hash: object members sorted by key at every depth.

 JavaScript keeps the properties of an object in its own order: keys that are array indices first, by
 value, then the others as inserted.  `sortValue` inserts in sorted order, so the form it returns is the
 sorted one re-ordered by that rule; it is canonical all the same.
 */
module CanonicalJson {
  import opened JsonText
  import Digits

  // ----- orders on keys

  /** Comparison by UTF-16 code units, as `Array.prototype.sort` compares strings. */
  predicate Less(a: Text, b: Text) {
    b != [] && (a == [] || a[0] < b[0] || (a[0] == b[0] && Less(a[1..], b[1..])))
  }

  function Decimal(t: Text): int {
    if t == [] then 0 else var last: int := t[|t| - 1]; 10 * Decimal(t[..|t| - 1]) + last - 48
  }

  /** A canonical decimal numeral of at most 2^32 - 2: such keys come first in an object, by value. */
  predicate IsArrayIndex(t: Text) {
    t != [] && (forall i | 0 <= i < |t| :: IsDigit(t[i])) && (t[0] == 48 ==> |t| == 1) && Decimal(t) <= 0xFFFF_FFFE
  }

  predicate IndexBefore(a: Text, b: Text) {
    Decimal(a) < Decimal(b)
  }

  // ----- sorting members

  function Insert(before: (Text, Text) -> bool, m: Member, ms: seq<Member>): seq<Member> {
    if ms == [] then [m]
    else if before(m.key, ms[0].key) then [m] + ms
    else [ms[0]] + Insert(before, m, ms[1..])
  }

  function SortBy(before: (Text, Text) -> bool, ms: seq<Member>): seq<Member> {
    if ms == [] then [] else Insert(before, ms[0], SortBy(before, ms[1..]))
  }

  function Indices(ms: seq<Member>): seq<Member> {
    if ms == [] then [] else (if IsArrayIndex(ms[0].key) then [ms[0]] else []) + Indices(ms[1..])
  }

  function Names(ms: seq<Member>): seq<Member> {
    if ms == [] then [] else (if IsArrayIndex(ms[0].key) then [] else [ms[0]]) + Names(ms[1..])
  }

  /** `Object.fromEntries`: the members in the order the new object keeps them. */
  function FromEntries(ms: seq<Member>): seq<Member> {
    SortBy(IndexBefore, Indices(ms)) + Names(ms)
  }

  function SortValue(v: Json): Json
    decreases v, 0
  {
    match v
    case Arr(items) => Arr(SortItems(items))
    case Obj(ms) => Obj(FromEntries(SortBy(Less, SortMembers(ms))))
    case _ => v
  }

  function SortItems(items: seq<Json>): (r: seq<Json>)
    ensures |r| == |items| && forall i | 0 <= i < |r| :: r[i] == SortValue(items[i])
    decreases items, 1
  {
    if items == [] then [] else [SortValue(items[0])] + SortItems(items[1..])
  }

  function SortMembers(ms: seq<Member>): (r: seq<Member>)
    ensures |r| == |ms| && forall i | 0 <= i < |r| :: r[i] == Member(ms[i].key, SortValue(ms[i].value))
    decreases ms, 1
  {
    if ms == [] then [] else [Member(ms[0].key, SortValue(ms[0].value))] + SortMembers(ms[1..])
  }

  /** `stableStringify`. */
  function Canonical(v: Json): Text {
    Print(SortValue(v))
  }

  // ----- differing only in the order of object members

  ghost predicate Same(a: Json, b: Json)
    decreases a, 1
  {
    match a
    case Arr(items) =>
      b.Arr? && |items| == |b.items| && forall i | 0 <= i < |items| :: Same(items[i], b.items[i])
    case Obj(ms) => b.Obj? && Covers(ms, b.members)
    case _ => a == b
  }

  /** Every member of each list has a twin in the other. */
  ghost predicate Covers(ms: seq<Member>, ns: seq<Member>)
    decreases ms, 2
  {
    (forall i | 0 <= i < |ms| :: TwinIn(ms[i], ns)) && (forall j | 0 <= j < |ns| :: TwinOf(ms, ns[j]))
  }

  ghost predicate TwinIn(m: Member, ns: seq<Member>)
    decreases m, 1
  {
    exists j :: 0 <= j < |ns| && SameMember(m, ns[j])
  }

  ghost predicate TwinOf(ms: seq<Member>, n: Member)
    decreases ms, 1
  {
    exists i :: 0 <= i < |ms| && SameMember(ms[i], n)
  }

  ghost predicate SameMember(m: Member, n: Member)
    decreases m, 0
  {
    m.key == n.key && Same(m.value, n.value)
  }

  // ----- sorting permutes

  lemma {:induction false} InsertPermutes(before: (Text, Text) -> bool, m: Member, ms: seq<Member>)
    ensures multiset(Insert(before, m, ms)) == multiset(ms) + multiset{m}
  {
    if ms != [] {
      assert ms == [ms[0]] + ms[1..];
      InsertPermutes(before, m, ms[1..]);
    }
  }

  lemma {:induction false} SortPermutes(before: (Text, Text) -> bool, ms: seq<Member>)
    ensures multiset(SortBy(before, ms)) == multiset(ms)
  {
    if ms != [] {
      assert ms == [ms[0]] + ms[1..];
      SortPermutes(before, ms[1..]);
      InsertPermutes(before, ms[0], SortBy(before, ms[1..]));
    }
  }

  lemma {:induction false} SplitPermutes(ms: seq<Member>)
    ensures multiset(Indices(ms)) + multiset(Names(ms)) == multiset(ms)
  {
    if ms != [] {
      assert ms == [ms[0]] + ms[1..];
      SplitPermutes(ms[1..]);
    }
  }

  lemma ArrangePermutes(ms: seq<Member>)
    ensures multiset(FromEntries(SortBy(Less, ms))) == multiset(ms)
  {
    var sorted := SortBy(Less, ms);
    SortPermutes(Less, ms);
    SplitPermutes(sorted);
    SortPermutes(IndexBefore, Indices(sorted));
  }

  lemma PermutedMembers(a: seq<Member>, b: seq<Member>)
    requires multiset(a) == multiset(b)
    ensures forall m :: m in a <==> m in b
  {
    assert forall m :: m in a <==> m in multiset(a);
    assert forall m :: m in b <==> m in multiset(b);
  }

  lemma {:induction false} DistinctOccursOnce(ms: seq<Member>, m: Member)
    requires DistinctKeys(ms)
    ensures multiset(ms)[m] <= 1
  {
    if ms != [] {
      assert ms == [ms[0]] + ms[1..];
      DistinctOccursOnce(ms[1..], m);
      if m == ms[0] { assert m !in ms[1..]; }
    }
  }

  lemma OccursTwice(ms: seq<Member>, i: nat, j: nat)
    requires i < j < |ms| && ms[i] == ms[j]
    ensures multiset(ms)[ms[i]] >= 2
  {
    assert ms == ms[..j] + ms[j..];
    assert ms[..j][i] in multiset(ms[..j]) && ms[j..][0] in multiset(ms[j..]);
  }

  lemma PermutedDistinct(a: seq<Member>, b: seq<Member>)
    requires multiset(a) == multiset(b) && DistinctKeys(a)
    ensures DistinctKeys(b)
  {
    PermutedMembers(a, b);
    forall i, j | 0 <= i < j < |b| ensures b[i].key != b[j].key {
      if b[i] == b[j] {
        OccursTwice(b, i, j);
        DistinctOccursOnce(a, b[i]);
      } else {
        assert b[i] in a && b[j] in a;
      }
    }
  }

  lemma ArrangeKeeps(ms: seq<Member>)
    requires DistinctKeys(ms)
    ensures var r := FromEntries(SortBy(Less, ms)); DistinctKeys(r) && forall m :: m in r <==> m in ms
  {
    ArrangePermutes(ms);
    PermutedDistinct(ms, FromEntries(SortBy(Less, ms)));
    PermutedMembers(FromEntries(SortBy(Less, ms)), ms);
  }

  // ----- the sorted order is determined by the members

  lemma {:induction false} LessIsTotal(a: Text, b: Text)
    ensures a == b || Less(a, b) || Less(b, a)
  {
    if a != [] && b != [] {
      LessIsTotal(a[1..], b[1..]);
      assert a == [a[0]] + a[1..] && b == [b[0]] + b[1..];
    }
  }

  lemma {:induction false} LessIsStrict(a: Text, b: Text)
    requires Less(a, b)
    ensures !Less(b, a)
  {
    if a != [] && a[0] == b[0] { LessIsStrict(a[1..], b[1..]); }
  }

  lemma {:induction false} LessIsTransitive(a: Text, b: Text, c: Text)
    requires Less(a, b) && Less(b, c)
    ensures Less(a, c)
  {
    if a != [] && a[0] == b[0] == c[0] { LessIsTransitive(a[1..], b[1..], c[1..]); }
  }

  ghost predicate Sorted(ms: seq<Member>) {
    forall i, j | 0 <= i < j < |ms| :: Less(ms[i].key, ms[j].key)
  }

  lemma {:induction false} InsertSorts(m: Member, ms: seq<Member>)
    requires Sorted(ms) && forall n | n in ms :: n.key != m.key
    ensures Sorted(Insert(Less, m, ms))
  {
    if ms != [] {
      if Less(m.key, ms[0].key) {
        forall n | n in ms ensures Less(m.key, n.key) {
          if n != ms[0] { LessIsTransitive(m.key, ms[0].key, n.key); }
        }
      } else {
        LessIsTotal(m.key, ms[0].key);
        InsertSorts(m, ms[1..]);
        InsertPermutes(Less, m, ms[1..]);
        var rest := Insert(Less, m, ms[1..]);
        forall n | n in rest ensures Less(ms[0].key, n.key) {
          assert n in multiset(rest);
          assert n == m || n in ms[1..];
        }
      }
    }
  }

  lemma {:induction false} SortSorts(ms: seq<Member>)
    requires DistinctKeys(ms)
    ensures Sorted(SortBy(Less, ms))
  {
    if ms != [] {
      SortSorts(ms[1..]);
      SortPermutes(Less, ms[1..]);
      PermutedMembers(SortBy(Less, ms[1..]), ms[1..]);
      InsertSorts(ms[0], SortBy(Less, ms[1..]));
    }
  }

  lemma HeadIsMember(ms: seq<Member>)
    ensures ms == [] || ms[0] in ms
  {
  }

  lemma {:induction false} SortedIsUnique(a: seq<Member>, b: seq<Member>)
    requires Sorted(a) && Sorted(b) && forall m :: m in a <==> m in b
    ensures a == b
  {
    if a == [] {
      HeadIsMember(b);
    } else {
      assert a[0] in b;
      assert b[0] in a;
      if a[0] != b[0] { LessIsStrict(a[0].key, b[0].key); }
      SortedHeadIsNew(a);
      SortedHeadIsNew(b);
      assert a == [a[0]] + a[1..] && b == [b[0]] + b[1..];
      assert forall m :: m in a[1..] <==> m in a && m != a[0];
      assert forall m :: m in b[1..] <==> m in b && m != b[0];
      SortedIsUnique(a[1..], b[1..]);
    }
  }

  lemma SortedHeadIsNew(ms: seq<Member>)
    requires Sorted(ms) && ms != []
    ensures ms[0] !in ms[1..]
  {
    if ms[0] in ms[1..] { LessIsStrict(ms[0].key, ms[0].key); }
  }

  // ----- the main results

  lemma {:induction false} SortedIsWellFormed(a: Json)
    requires WellFormed(a)
    ensures WellFormed(SortValue(a))
    decreases a
  {
    match a
    case Arr(items) =>
      forall i | 0 <= i < |items| ensures WellFormed(SortValue(items[i])) { SortedIsWellFormed(items[i]); }
    case Obj(ms) =>
      forall i | 0 <= i < |ms| ensures WellFormed(SortValue(ms[i].value)) { SortedIsWellFormed(ms[i].value); }
      ArrangeKeeps(SortMembers(ms));
      assert forall m | m in SortMembers(ms) :: WellFormed(m.value);
    case _ =>
  }

  lemma PermutedCovers(ms: seq<Member>, r: seq<Member>)
    requires forall m :: m in r <==> m in SortMembers(ms)
    requires forall i | 0 <= i < |ms| :: SameMember(SortMembers(ms)[i], ms[i])
    ensures Covers(r, ms)
  {
    var s := SortMembers(ms);
    forall i | 0 <= i < |r| ensures TwinIn(r[i], ms) {
      assert r[i] in s;
      var j :| 0 <= j < |s| && s[j] == r[i];
      assert SameMember(s[j], ms[j]);
    }
    forall j | 0 <= j < |ms| ensures TwinOf(r, ms[j]) {
      assert s[j] in r;
      var i :| 0 <= i < |r| && r[i] == s[j];
      assert SameMember(s[j], ms[j]);
    }
  }

  lemma {:induction false} SortedIsSame(a: Json)
    requires WellFormed(a)
    ensures Same(SortValue(a), a)
    decreases a
  {
    match a
    case Arr(items) =>
      forall i | 0 <= i < |items| ensures Same(SortValue(items[i]), items[i]) { SortedIsSame(items[i]); }
    case Obj(ms) =>
      forall i | 0 <= i < |ms| ensures SameMember(SortMembers(ms)[i], ms[i]) { SortedIsSame(ms[i].value); }
      ArrangeKeeps(SortMembers(ms));
      PermutedCovers(ms, FromEntries(SortBy(Less, SortMembers(ms))));
    case _ =>
  }

  lemma CoveredMembers(ms: seq<Member>, ns: seq<Member>)
    requires Covers(ms, ns)
    requires forall i, j | 0 <= i < |ms| && 0 <= j < |ns| && SameMember(ms[i], ns[j]) ::
        SortMembers(ms)[i] == SortMembers(ns)[j]
    ensures forall m :: m in SortMembers(ms) <==> m in SortMembers(ns)
  {
    var s, t := SortMembers(ms), SortMembers(ns);
    forall m ensures m in s <==> m in t {
      if m in s {
        var i :| 0 <= i < |s| && s[i] == m;
        assert TwinIn(ms[i], ns);
        var j :| 0 <= j < |ns| && SameMember(ms[i], ns[j]);
        assert t[j] == m;
      }
      if m in t {
        var j :| 0 <= j < |t| && t[j] == m;
        assert TwinOf(ms, ns[j]);
        var i :| 0 <= i < |ms| && SameMember(ms[i], ns[j]);
        assert s[i] == m;
      }
    }
  }

  /** Values that differ only in member order have one sorted form. */
  lemma {:induction false} SameSortsAlike(a: Json, b: Json)
    requires WellFormed(a) && WellFormed(b) && Same(a, b)
    ensures SortValue(a) == SortValue(b)
    decreases a
  {
    match a
    case Arr(items) =>
      forall i | 0 <= i < |items|
        ensures SortValue(items[i]) == SortValue(b.items[i]) { SameSortsAlike(items[i], b.items[i]); }
      assert SortItems(items) == SortItems(b.items);
    case Obj(ms) =>
      var ns := b.members;
      forall i, j | 0 <= i < |ms| && 0 <= j < |ns| && SameMember(ms[i], ns[j])
        ensures SortMembers(ms)[i] == SortMembers(ns)[j]
      {
        SameSortsAlike(ms[i].value, ns[j].value);
      }
      CoveredMembers(ms, ns);
      SortsAlike(SortMembers(ms), SortMembers(ns));
    case _ =>
  }

  lemma SortsAlike(s: seq<Member>, t: seq<Member>)
    requires DistinctKeys(s) && DistinctKeys(t) && forall m :: m in s <==> m in t
    ensures SortBy(Less, s) == SortBy(Less, t)
  {
    SortSorts(s);
    SortSorts(t);
    SortPermutes(Less, s);
    SortPermutes(Less, t);
    PermutedMembers(SortBy(Less, s), s);
    PermutedMembers(SortBy(Less, t), t);
    SortedIsUnique(SortBy(Less, s), SortBy(Less, t));
  }

  lemma AlikeCovers(ms: seq<Member>, ns: seq<Member>)
    requires forall m :: m in SortMembers(ms) <==> m in SortMembers(ns)
    requires forall i, j | 0 <= i < |ms| && 0 <= j < |ns| && SortMembers(ms)[i] == SortMembers(ns)[j] ::
        SameMember(ms[i], ns[j])
    ensures Covers(ms, ns)
  {
    var s, t := SortMembers(ms), SortMembers(ns);
    forall i | 0 <= i < |ms| ensures TwinIn(ms[i], ns) {
      assert s[i] in t;
      var j :| 0 <= j < |t| && t[j] == s[i];
      assert SameMember(ms[i], ns[j]);
    }
    forall j | 0 <= j < |ns| ensures TwinOf(ms, ns[j]) {
      assert t[j] in s;
      var i :| 0 <= i < |s| && s[i] == t[j];
      assert SameMember(ms[i], ns[j]);
    }
  }

  /** And only those have it. */
  lemma {:induction false} AlikeIsSame(a: Json, b: Json)
    requires WellFormed(a) && WellFormed(b) && SortValue(a) == SortValue(b)
    ensures Same(a, b)
    decreases a
  {
    match a
    case Arr(items) =>
      assert SortItems(items) == SortItems(b.items);
      forall i | 0 <= i < |items| ensures Same(items[i], b.items[i]) { AlikeIsSame(items[i], b.items[i]); }
    case Obj(ms) =>
      var s, t := SortMembers(ms), SortMembers(b.members);
      ArrangeKeeps(s);
      ArrangeKeeps(t);
      forall i, j | 0 <= i < |ms| && 0 <= j < |b.members| && s[i] == t[j] ensures SameMember(ms[i], b.members[j]) {
        AlikeIsSame(ms[i].value, b.members[j].value);
      }
      AlikeCovers(ms, b.members);
    case _ =>
  }

  /** Two values have the same canonical text exactly when they differ only in the order of object members. */
  lemma CanonicalIffSame(a: Json, b: Json)
    requires WellFormed(a) && WellFormed(b)
    ensures Canonical(a) == Canonical(b) <==> Same(a, b)
  {
    SortedIsWellFormed(a);
    SortedIsWellFormed(b);
    PrintInjective(SortValue(a), SortValue(b));
    if Same(a, b) { SameSortsAlike(a, b); }
    if SortValue(a) == SortValue(b) { AlikeIsSame(a, b); }
  }

  lemma SortIsIdempotent(a: Json)
    requires WellFormed(a)
    ensures SortValue(SortValue(a)) == SortValue(a)
  {
    SortedIsWellFormed(a);
    SortedIsSame(a);
    SameSortsAlike(SortValue(a), a);
  }

  // ----- the order of the keys, written out

  /** The first unit in which they differ is smaller, or `a` is a proper beginning of `b`. */
  predicate DiffersAt(a: Text, b: Text, k: nat) {
    k <= |a| && k < |b| && a[..k] == b[..k] && (k < |a| ==> a[k] < b[k])
  }

  lemma {:induction false} LessAt(a: Text, b: Text, k: nat)
    requires DiffersAt(a, b, k)
    ensures Less(a, b)
  {
    if k > 0 {
      assert a[0] == a[..k][0] && b[0] == b[..k][0];
      assert a[1..][..k - 1] == a[..k][1..] && b[1..][..k - 1] == b[..k][1..];
      LessAt(a[1..], b[1..], k - 1);
    }
  }

  lemma {:induction false} LessMeans(a: Text, b: Text)
    ensures Less(a, b) <==> exists k: nat :: DiffersAt(a, b, k)
  {
    if Less(a, b) {
      if a == [] || a[0] < b[0] {
        assert DiffersAt(a, b, 0);
      } else {
        LessMeans(a[1..], b[1..]);
        var k: nat :| DiffersAt(a[1..], b[1..], k);
        assert a[..k + 1] == [a[0]] + a[1..][..k] && b[..k + 1] == [b[0]] + b[1..][..k];
        assert DiffersAt(a, b, k + 1);
      }
    }
    if k: nat :| DiffersAt(a, b, k) { LessAt(a, b, k); }
  }

  lemma {:induction false} DecimalOfText(n: nat)
    ensures
      var t := Codes(Digits.ToText(n));
      && Decimal(t) == n && (forall i | 0 <= i < |t| :: IsDigit(t[i])) && (n > 0 ==> t[0] != 48)
  {
    var s := Digits.ToText(n);
    if n >= 10 {
      DecimalOfText(n / 10);
      assert Codes(s)[..|s| - 1] == Codes(Digits.ToText(n / 10));
    } else {
      assert Codes(s) == [48 + n] && [48 + n][..0] == [];
      assert Decimal([]) == 0;
    }
  }

  lemma {:induction false} TextOfDecimal(t: Text)
    requires t != [] && (forall i | 0 <= i < |t| :: IsDigit(t[i])) && (t[0] == 48 ==> |t| == 1)
    ensures Decimal(t) >= 0 && t == Codes(Digits.ToText(Decimal(t))) && (t[0] != 48 ==> Decimal(t) > 0)
  {
    var front, last: int := t[..|t| - 1], t[|t| - 1];
    assert t == front + [last];
    if front == [] {
      assert Decimal([]) == 0;
    } else {
      TextOfDecimal(front);
      assert Decimal(t) / 10 == Decimal(front) && Decimal(t) % 10 == last - 48;
      assert Codes(Digits.ToText(Decimal(t))) == Codes(Digits.ToText(Decimal(front))) + [last];
    }
  }

  /** The keys that come first: the numerals of 0 to 2^32 - 2, ordered as numbers. */
  lemma IndexMeans(t: Text)
    ensures IsArrayIndex(t) <==> exists n: nat :: n <= 0xFFFF_FFFE && t == Codes(Digits.ToText(n))
    ensures forall n: nat | t == Codes(Digits.ToText(n)) :: Decimal(t) == n
  {
    if IsArrayIndex(t) { TextOfDecimal(t); }
    forall n: nat | t == Codes(Digits.ToText(n)) ensures Decimal(t) == n && (n <= 0xFFFF_FFFE ==> IsArrayIndex(t)) {
      DecimalOfText(n);
      if n == 0 { assert |Codes(Digits.ToText(0))| == 1; }
    }
  }

  /** Index keys come before the others and in the order of their numbers, the others in the order of their units. */
  predicate KeyBefore(a: Text, b: Text) {
    if IsArrayIndex(a) then IsArrayIndex(b) ==> Decimal(a) <= Decimal(b)
    else !IsArrayIndex(b) && Less(a, b)
  }

  ghost predicate KeysInOrder(ms: seq<Member>) {
    forall i, j | 0 <= i < j < |ms| :: KeyBefore(ms[i].key, ms[j].key)
  }

  /** The members of every object, at any depth, stand in the order of their keys. */
  ghost predicate InOrder(v: Json) {
    match v
    case Arr(items) => forall i | 0 <= i < |items| :: InOrder(items[i])
    case Obj(ms) => KeysInOrder(ms) && forall i | 0 <= i < |ms| :: InOrder(ms[i].value)
    case _ => true
  }

  lemma {:induction false} NamesSorted(ms: seq<Member>)
    requires Sorted(ms)
    ensures Sorted(Names(ms)) && forall m | m in Names(ms) :: m in ms && !IsArrayIndex(m.key)
  {
    if ms != [] {
      NamesSorted(ms[1..]);
      forall m | m in ms[1..] ensures Less(ms[0].key, m.key) {
      }
    }
  }

  lemma {:induction false} IndicesOnly(ms: seq<Member>)
    ensures forall m | m in Indices(ms) :: IsArrayIndex(m.key)
  {
    if ms != [] { IndicesOnly(ms[1..]); }
  }

  ghost predicate Ascending(ms: seq<Member>) {
    forall i, j | 0 <= i < j < |ms| :: Decimal(ms[i].key) <= Decimal(ms[j].key)
  }

  lemma {:induction false} InsertAscends(m: Member, ms: seq<Member>)
    requires Ascending(ms)
    ensures Ascending(Insert(IndexBefore, m, ms))
  {
    if ms != [] && !IndexBefore(m.key, ms[0].key) {
      InsertAscends(m, ms[1..]);
      InsertPermutes(IndexBefore, m, ms[1..]);
      var rest := Insert(IndexBefore, m, ms[1..]);
      forall n | n in rest ensures Decimal(ms[0].key) <= Decimal(n.key) {
        assert n in multiset(rest);
        assert n == m || n in ms[1..];
      }
    }
  }

  lemma {:induction false} SortAscends(ms: seq<Member>)
    ensures Ascending(SortBy(IndexBefore, ms))
  {
    if ms != [] {
      SortAscends(ms[1..]);
      InsertAscends(ms[0], SortBy(IndexBefore, ms[1..]));
    }
  }

  lemma EntriesInOrder(ms: seq<Member>)
    requires Sorted(ms)
    ensures KeysInOrder(FromEntries(ms))
  {
    var a, b := SortBy(IndexBefore, Indices(ms)), Names(ms);
    SortAscends(Indices(ms));
    SortPermutes(IndexBefore, Indices(ms));
    PermutedMembers(a, Indices(ms));
    IndicesOnly(ms);
    NamesSorted(ms);
    forall i | 0 <= i < |a| ensures IsArrayIndex(a[i].key) { assert a[i] in a; }
    forall i | 0 <= i < |b| ensures !IsArrayIndex(b[i].key) { assert b[i] in b; }
  }

  /** `sortValue` puts the members of every object in the order of their keys. */
  lemma {:induction false} SortedIsInOrder(a: Json)
    requires WellFormed(a)
    ensures InOrder(SortValue(a))
    decreases a
  {
    match a
    case Arr(items) =>
      forall i | 0 <= i < |items| ensures InOrder(SortValue(items[i])) { SortedIsInOrder(items[i]); }
    case Obj(ms) =>
      forall i | 0 <= i < |ms| ensures InOrder(SortValue(ms[i].value)) { SortedIsInOrder(ms[i].value); }
      var s := SortMembers(ms);
      SortSorts(s);
      EntriesInOrder(SortBy(Less, s));
      ArrangeKeeps(s);
      assert forall m | m in s :: InOrder(m.value);
    case _ =>
  }

  // ----- the request fingerprint

  const METHOD: Text := [109, 101, 116, 104, 111, 100]
  const PATH: Text := [112, 97, 116, 104]
  const PARAMS: Text := [112, 97, 114, 97, 109, 115]
  const QUERY: Text := [113, 117, 101, 114, 121]
  const BODY: Text := [98, 111, 100, 121]

  datatype Fingerprint = Fingerprint(verb: Text, path: Text, params: Json, query: Json, body: Json)

  predicate FingerprintOk(f: Fingerprint) {
    WellFormed(f.params) && WellFormed(f.query) && WellFormed(f.body)
  }

  function FingerprintValue(f: Fingerprint): Json {
    Obj([Member(METHOD, Str(f.verb)), Member(PATH, Str(f.path)), Member(PARAMS, f.params), Member(QUERY, f.query),
        Member(BODY, f.body)])
  }

  lemma FingerprintWellFormed(f: Fingerprint)
    requires FingerprintOk(f)
    ensures WellFormed(FingerprintValue(f))
  {
    var ms := FingerprintValue(f).members;
    assert ms[0].key[0] == 109 && ms[1].key[0] == 112 && ms[2].key[0] == 112 && ms[3].key[0] == 113
        && ms[4].key[0] == 98;
    assert |ms[1].key| == 4 && |ms[2].key| == 6;
  }

  /** The five keys differ, so the twin of a field is the same field. */
  lemma FieldsMatch(f: Fingerprint, g: Fingerprint)
    requires FingerprintOk(f) && FingerprintOk(g)
    ensures
      var ms, ns := FingerprintValue(f).members, FingerprintValue(g).members;
      Covers(ms, ns) <==> forall i | 0 <= i < 5 :: SameMember(ms[i], ns[i])
  {
    FingerprintWellFormed(f);
    FingerprintWellFormed(g);
    var ms, ns := FingerprintValue(f).members, FingerprintValue(g).members;
    assert forall i | 0 <= i < 5 :: ms[i].key == ns[i].key;
    if Covers(ms, ns) {
      forall i | 0 <= i < 5 ensures SameMember(ms[i], ns[i]) {
        assert TwinIn(ms[i], ns);
        var j :| 0 <= j < 5 && SameMember(ms[i], ns[j]);
        assert ms[j].key == ms[i].key;
      }
    }
    if forall i | 0 <= i < 5 :: SameMember(ms[i], ns[i]) {
      forall i | 0 <= i < 5 ensures TwinIn(ms[i], ns) && TwinOf(ms, ns[i]) { assert SameMember(ms[i], ns[i]); }
    }
  }

  /** The text that is hashed tells two requests apart exactly when they differ in more than member order. */
  lemma SameRequestIffSameText(f: Fingerprint, g: Fingerprint)
    requires FingerprintOk(f) && FingerprintOk(g)
    ensures
      Canonical(FingerprintValue(f)) == Canonical(FingerprintValue(g))
      <==>
      f.verb == g.verb && f.path == g.path
      && Same(f.params, g.params) && Same(f.query, g.query) && Same(f.body, g.body)
  {
    FingerprintWellFormed(f);
    FingerprintWellFormed(g);
    CanonicalIffSame(FingerprintValue(f), FingerprintValue(g));
    FieldsMatch(f, g);
    var ms, ns := FingerprintValue(f).members, FingerprintValue(g).members;
    assert (forall i | 0 <= i < 5 :: SameMember(ms[i], ns[i]))
        <==> SameMember(ms[0], ns[0]) && SameMember(ms[1], ns[1]) && SameMember(ms[2], ns[2])
             && SameMember(ms[3], ns[3]) && SameMember(ms[4], ns[4]);
  }

  /**
   Array order stays significant: swapping two entries changes the text exactly if they differ in more than member
   order.
   */
  lemma ArrayOrderCounts(items: seq<Json>, i: nat, j: nat)
    requires WellFormed(Arr(items)) && i < |items| && j < |items|
    ensures Canonical(Arr(items)) != Canonical(Arr(items[i := items[j]][j := items[i]])) <==> !Same(items[i], items[j])
  {
    var swapped := items[i := items[j]][j := items[i]];
    assert WellFormed(Arr(swapped));
    CanonicalIffSame(Arr(items), Arr(swapped));
    if Same(items[i], items[j]) {
      SameSortsAlike(items[i], items[j]);
      forall k | 0 <= k < |items| ensures Same(items[k], swapped[k]) { AlikeIsSame(items[k], swapped[k]); }
    }
  }

  // ----- the text that is hashed

  lemma NamesOnly(ms: seq<Member>)
    requires forall i | 0 <= i < |ms| :: !IsArrayIndex(ms[i].key)
    ensures FromEntries(ms) == ms
  {
    NoIndices(ms);
  }

  lemma {:induction false} NoIndices(ms: seq<Member>)
    requires forall i | 0 <= i < |ms| :: !IsArrayIndex(ms[i].key)
    ensures Indices(ms) == [] && Names(ms) == ms
  {
    if ms != [] {
      NoIndices(ms[1..]);
      assert ms == [ms[0]] + ms[1..];
    }
  }

  /** A member with a plain key: `name` is the key with its quotes and colon. */
  function Field(name: string, text: Text): Text {
    Codes(name) + text
  }

  lemma FieldIsPrinted(key: Text, name: string, v: Json)
    requires forall i | 0 <= i < |key| :: 'a' as int <= key[i] <= 'z' as int
    requires Codes(name) == [34] + key + [34, 58]
    ensures PrintMember(Member(key, v)) == Field(name, Print(v))
  {
    AsciiIsPaired(key);
    PlainIsQuoted(key);
    assert Quote(key) + [COLON] == Codes(name);
  }

  function Fields(f: Fingerprint): seq<Member> {
    [Member(BODY, SortValue(f.body)), Member(METHOD, Str(f.verb)), Member(PARAMS, SortValue(f.params)),
     Member(PATH, Str(f.path)), Member(QUERY, SortValue(f.query))]
  }

  lemma FieldsInOrder(f: Fingerprint)
    ensures Sorted(Fields(f))
  {
    LessAt(BODY, METHOD, 0);
    LessAt(METHOD, PARAMS, 0);
    assert PARAMS[..2] == PATH[..2];
    LessAt(PARAMS, PATH, 2);
    LessAt(PATH, QUERY, 0);
    LessIsTransitive(BODY, METHOD, PARAMS);
    LessIsTransitive(BODY, PARAMS, PATH);
    LessIsTransitive(BODY, PATH, QUERY);
    LessIsTransitive(METHOD, PARAMS, PATH);
    LessIsTransitive(METHOD, PATH, QUERY);
    LessIsTransitive(PARAMS, PATH, QUERY);
  }

  lemma SameFields(f: Fingerprint, m: Member)
    ensures m in SortMembers(FingerprintValue(f).members) <==> m in Fields(f)
  {
    var s, r := SortMembers(FingerprintValue(f).members), Fields(f);
    assert s[0] == r[1] && s[1] == r[3] && s[2] == r[2] && s[3] == r[4] && s[4] == r[0];
  }

  /** An object without index keys sorts to the list of its sorted members that is in order. */
  lemma SortsTo(ms: seq<Member>, r: seq<Member>)
    requires WellFormed(Obj(ms)) && Sorted(r) && forall m :: m in SortMembers(ms) <==> m in r
    requires forall i | 0 <= i < |r| :: !IsArrayIndex(r[i].key)
    ensures SortValue(Obj(ms)) == Obj(r)
  {
    var s := SortMembers(ms);
    SortSorts(s);
    SortPermutes(Less, s);
    PermutedMembers(SortBy(Less, s), s);
    SortedIsUnique(SortBy(Less, s), r);
    NamesOnly(r);
  }

  lemma FieldsAreSorted(f: Fingerprint)
    requires FingerprintOk(f)
    ensures SortValue(FingerprintValue(f)) == Obj(Fields(f))
  {
    FingerprintWellFormed(f);
    FieldsInOrder(f);
    forall m ensures m in SortMembers(FingerprintValue(f).members) <==> m in Fields(f) { SameFields(f, m); }
    FieldsAreNames(f);
    SortsTo(FingerprintValue(f).members, Fields(f));
  }

  lemma FieldsAreNames(f: Fingerprint)
    ensures forall i | 0 <= i < |Fields(f)| :: !IsArrayIndex(Fields(f)[i].key)
  {
  }

  lemma MoreJoins(x: Text, m: Member, ms: seq<Member>)
    ensures x + PrintMoreMembers([m] + ms) == (x + [COMMA] + PrintMember(m)) + PrintMoreMembers(ms)
  {
    assert ([m] + ms)[1..] == ms;
    assert x + ([COMMA] + PrintMember(m) + PrintMoreMembers(ms))
        == (x + [COMMA] + PrintMember(m)) + PrintMoreMembers(ms);
  }

  /** The text of an object of five members. */
  function FiveTexts(a: Text, b: Text, c: Text, d: Text, e: Text): Text {
    [123] + a + [44] + b + [44] + c + [44] + d + [44] + e + [125]
  }

  lemma FivePrinted(a: Member, b: Member, c: Member, d: Member, e: Member)
    ensures Print(Obj([a, b, c, d, e])) ==
      FiveTexts(PrintMember(a), PrintMember(b), PrintMember(c), PrintMember(d), PrintMember(e))
  {
    var x1 := [OPEN_BRACE] + PrintMember(a);
    var x2 := x1 + [COMMA] + PrintMember(b);
    var x3 := x2 + [COMMA] + PrintMember(c);
    var x4 := x3 + [COMMA] + PrintMember(d);
    var x5 := x4 + [COMMA] + PrintMember(e);
    MoreJoins(x1, b, [c, d, e]);
    MoreJoins(x2, c, [d, e]);
    MoreJoins(x3, d, [e]);
    MoreJoins(x4, e, []);
    assert [b] + [c, d, e] == [b, c, d, e] && [c] + [d, e] == [c, d, e] && [d] + [e] == [d, e] && [e] + [] == [e];
    assert x5 + PrintMoreMembers([]) == x5;
    ObjectJoins(a, [b, c, d, e]);
  }

  lemma ObjectJoins(m: Member, ms: seq<Member>)
    ensures Print(Obj([m] + ms)) == [OPEN_BRACE] + PrintMember(m) + PrintMoreMembers(ms) + [CLOSE_BRACE]
  {
    assert ([m] + ms)[1..] == ms;
    assert [OPEN_BRACE] + (PrintMember(m) + PrintMoreMembers(ms))
        == [OPEN_BRACE] + PrintMember(m) + PrintMoreMembers(ms);
  }

  lemma BodyIsPrinted(v: Json)
    ensures PrintMember(Member(BODY, v)) == Field("\"body\":", Print(v))
  {
    FieldIsPrinted(BODY, "\"body\":", v);
  }

  lemma MethodIsPrinted(t: Text)
    ensures PrintMember(Member(METHOD, Str(t))) == Field("\"method\":", Quote(t))
  {
    FieldIsPrinted(METHOD, "\"method\":", Str(t));
  }

  lemma ParamsArePrinted(v: Json)
    ensures PrintMember(Member(PARAMS, v)) == Field("\"params\":", Print(v))
  {
    FieldIsPrinted(PARAMS, "\"params\":", v);
  }

  lemma PathIsPrinted(t: Text)
    ensures PrintMember(Member(PATH, Str(t))) == Field("\"path\":", Quote(t))
  {
    FieldIsPrinted(PATH, "\"path\":", Str(t));
  }

  lemma QueryIsPrinted(v: Json)
    ensures PrintMember(Member(QUERY, v)) == Field("\"query\":", Print(v))
  {
    FieldIsPrinted(QUERY, "\"query\":", v);
  }

  /** The text that is hashed: the five fields in the order of their names. */
  lemma FingerprintText(f: Fingerprint)
    requires FingerprintOk(f)
    ensures
      Canonical(FingerprintValue(f)) ==
      FiveTexts(Field("\"body\":", Canonical(f.body)), Field("\"method\":", Quote(f.verb)),
                Field("\"params\":", Canonical(f.params)), Field("\"path\":", Quote(f.path)),
                Field("\"query\":", Canonical(f.query)))
  {
    FieldsAreSorted(f);
    BodyIsPrinted(SortValue(f.body));
    MethodIsPrinted(f.verb);
    ParamsArePrinted(SortValue(f.params));
    PathIsPrinted(f.path);
    QueryIsPrinted(SortValue(f.query));
    FivePrinted(Member(BODY, SortValue(f.body)), Member(METHOD, Str(f.verb)), Member(PARAMS, SortValue(f.params)),
                Member(PATH, Str(f.path)), Member(QUERY, SortValue(f.query)));
  }
}
