/** The cookie cache, net/cookies/cookie_cache.cc: sets of cookies that are ordered by
    (domain, path, name) and compared by (domain, path, name, value) with a linear merge. */
module CookieCache {
  import opened Prelude

  /** `attributes` stands for everything that neither comparator looks at. */
  datatype Cookie = Cookie(domain: string, path: string, name: string, value: string, attributes: int)

  /** The identity of a cookie (section 5.3 of RFC 6265), and its identity with value. */
  type Key = (string, string, string)
  type FullKey = (string, string, string, string)

  function KeyOf(c: Cookie): Key { (c.domain, c.path, c.name) }
  function FullKeyOf(c: Cookie): FullKey { (c.domain, c.path, c.name, c.value) }

  // ---------------------------------------------------------------------------
  // The two orders

  /** The order of std::string. */
  predicate Less(a: string, b: string) {
    if b == [] then false
    else if a == [] then true
    else if a[0] != b[0] then a[0] < b[0]
    else Less(a[1..], b[1..])
  }

  lemma {:induction false} LessIsStrict(a: string, b: string)
    ensures !(Less(a, b) && Less(b, a))
    ensures !Less(a, a)
    ensures a != b ==> Less(a, b) || Less(b, a)
  {
    if a != [] {
      LessIsStrict(a[1..], a[1..]);
      if b != [] {
        LessIsStrict(a[1..], b[1..]);
        assert a == [a[0]] + a[1..] && b == [b[0]] + b[1..];
      }
    }
  }

  lemma {:induction false} LessIsTransitive(a: string, b: string, c: string)
    requires Less(a, b) && Less(b, c)
    ensures Less(a, c)
  {
    if a != [] && a[0] == b[0] && b[0] == c[0] {
      LessIsTransitive(a[1..], b[1..], c[1..]);
    }
  }

  /** It is the lexicographic order: one string is smaller at the first difference, or ends
      there. */
  lemma {:induction false} LessIff(a: string, b: string)
    ensures Less(a, b) <==>
            exists k :: 0 <= k <= |a| && k < |b| && a[..k] == b[..k] && (k == |a| || a[k] < b[k])
  {
    if b != [] && a != [] && a[0] == b[0] {
      LessIff(a[1..], b[1..]);
      if Less(a, b) {
        var k :| 0 <= k <= |a[1..]| && k < |b[1..]| && a[1..][..k] == b[1..][..k]
                 && (k == |a[1..]| || a[1..][k] < b[1..][k]);
        assert a[..k + 1] == [a[0]] + a[1..][..k] && b[..k + 1] == [b[0]] + b[1..][..k];
      }
      if k :| 0 <= k <= |a| && k < |b| && a[..k] == b[..k] && (k == |a| || a[k] < b[k]) {
        assert k > 0;
        assert a[1..][..k - 1] == a[..k][1..] && b[1..][..k - 1] == b[..k][1..];
      }
    } else if b != [] {
      assert a[..0] == b[..0];
      forall k | 0 < k <= |a| && k < |b| ensures a[..k] != b[..k] {
        assert a[..k][0] == a[0] && b[..k][0] == b[0];
      }
    }
  }

  /** CookieComparator. */
  predicate CookieLess(l: Cookie, r: Cookie) {
    if l.domain != r.domain then Less(l.domain, r.domain)
    else if l.path != r.path then Less(l.path, r.path)
    else if l.name != r.name then Less(l.name, r.name)
    else false
  }

  /** CookieAndValueComparator. */
  predicate CookieAndValueLess(l: Cookie, r: Cookie) {
    if l.domain != r.domain then Less(l.domain, r.domain)
    else if l.path != r.path then Less(l.path, r.path)
    else if l.name != r.name then Less(l.name, r.name)
    else if l.value != r.value then Less(l.value, r.value)
    else false
  }

  /** Both comparators are strict weak orders: they are irreflexive and asymmetric, two
      cookies are incomparable exactly when their keys agree, and so incomparability is
      an equivalence. The coarse order implies the fine one. */
  lemma ComparatorsAreOrders(l: Cookie, r: Cookie)
    ensures !(CookieLess(l, r) && CookieLess(r, l))
    ensures !CookieLess(l, r) && !CookieLess(r, l) <==> KeyOf(l) == KeyOf(r)
    ensures !(CookieAndValueLess(l, r) && CookieAndValueLess(r, l))
    ensures !CookieAndValueLess(l, r) && !CookieAndValueLess(r, l) <==> FullKeyOf(l) == FullKeyOf(r)
    ensures CookieLess(l, r) ==> CookieAndValueLess(l, r)
  {
    LessIsStrict(l.domain, r.domain);
    LessIsStrict(l.path, r.path);
    LessIsStrict(l.name, r.name);
    LessIsStrict(l.value, r.value);
  }

  /** The tuples that the comparators compare. */
  function Parts(c: Cookie): seq<string> { [c.domain, c.path, c.name] }
  function AllParts(c: Cookie): seq<string> { Parts(c) + [c.value] }

  /** The first tuple is smaller at the first difference, which is at place `k`. */
  predicate LessAt(s: seq<string>, t: seq<string>, k: nat)
    requires k < |s| == |t|
  {
    (forall j :: 0 <= j < k ==> s[j] == t[j]) && Less(s[k], t[k])
  }

  /** Both comparators are lexicographic on their tuples. */
  lemma ComparatorsAreLexicographic(l: Cookie, r: Cookie)
    ensures CookieLess(l, r) <==> exists k :: 0 <= k < 3 && LessAt(Parts(l), Parts(r), k)
    ensures CookieAndValueLess(l, r) <==> exists k :: 0 <= k < 4 && LessAt(AllParts(l), AllParts(r), k)
  {
    forall s: string ensures !Less(s, s) {
      LessIsStrict(s, s);
    }
    CoarseIff(l, r);
    FineIff(l, r);
  }

  lemma CoarseIff(l: Cookie, r: Cookie)
    requires forall s: string :: !Less(s, s)
    ensures CookieLess(l, r) <==> exists k :: 0 <= k < 3 && LessAt(Parts(l), Parts(r), k)
  {
    var s, t := Parts(l), Parts(r);
    if CookieLess(l, r) {
      assert LessAt(s, t, if s[0] != t[0] then 0 else if s[1] != t[1] then 1 else 2);
    }
    if k :| 0 <= k < 3 && LessAt(s, t, k) {
      assert (k > 0 ==> s[0] == t[0]) && (k > 1 ==> s[1] == t[1]) && s[k] != t[k];
    }
  }

  lemma FineIff(l: Cookie, r: Cookie)
    requires forall s: string :: !Less(s, s)
    ensures CookieAndValueLess(l, r) <==> exists k :: 0 <= k < 4 && LessAt(AllParts(l), AllParts(r), k)
  {
    var s, t := AllParts(l), AllParts(r);
    if CookieAndValueLess(l, r) {
      assert LessAt(s, t, if s[0] != t[0] then 0 else if s[1] != t[1] then 1 else if s[2] != t[2] then 2 else 3);
    }
    if k :| 0 <= k < 4 && LessAt(s, t, k) {
      assert (k > 0 ==> s[0] == t[0]) && (k > 1 ==> s[1] == t[1]) && (k > 2 ==> s[2] == t[2]) && s[k] != t[k];
    }
  }

  lemma ComparatorsAreTransitive(a: Cookie, b: Cookie, c: Cookie)
    ensures CookieLess(a, b) && CookieLess(b, c) ==> CookieLess(a, c)
    ensures CookieAndValueLess(a, b) && CookieAndValueLess(b, c) ==> CookieAndValueLess(a, c)
  {
    TransitiveAt(a.domain, b.domain, c.domain);
    TransitiveAt(a.path, b.path, c.path);
    TransitiveAt(a.name, b.name, c.name);
    TransitiveAt(a.value, b.value, c.value);
  }

  lemma TransitiveAt(a: string, b: string, c: string)
    ensures Less(a, b) && Less(b, c) ==> Less(a, c) && a != c
  {
    if Less(a, b) && Less(b, c) {
      LessIsTransitive(a, b, c);
      LessIsStrict(a, c);
    }
  }

  // ---------------------------------------------------------------------------
  // std::set<CanonicalCookie, CookieComparator>

  /** Strictly ascending in the coarse order, so each identity occurs once. */
  ghost predicate IsCookieSet(s: seq<Cookie>) {
    forall i, j :: 0 <= i < j < |s| ==> CookieLess(s[i], s[j])
  }

  ghost function Keys(s: seq<Cookie>): set<Key> {
    set c | c in s :: KeyOf(c)
  }

  /** What a list of cookies says, in terms of identities and values. */
  ghost function Contents(s: seq<Cookie>): set<FullKey> {
    set c | c in s :: FullKeyOf(c)
  }

  /** The cookies of a list, of each identity the first only. */
  function FirstOfEach(s: seq<Cookie>): seq<Cookie> {
    if s == [] then []
    else
      var before := FirstOfEach(s[..|s| - 1]);
      if exists c :: c in before && KeyOf(c) == KeyOf(s[|s| - 1]) then before else before + [s[|s| - 1]]
  }

  lemma {:induction false} FirstOfEachIsPart(s: seq<Cookie>)
    ensures forall c :: c in FirstOfEach(s) ==> c in s
    ensures forall c :: c in s ==> KeyOf(c) in Keys(FirstOfEach(s))
  {
    if s != [] {
      FirstOfEachIsPart(s[..|s| - 1]);
      assert s == s[..|s| - 1] + [s[|s| - 1]];
    }
  }

  /** Cookie `c` stands at place `i`, before all others of its identity. */
  predicate FirstAt(s: seq<Cookie>, c: Cookie, i: nat)
    requires i < |s|
  {
    s[i] == c && forall j :: 0 <= j < i ==> KeyOf(s[j]) != KeyOf(c)
  }

  lemma FirstAtOneMore(s: seq<Cookie>, last: Cookie, c: Cookie)
    ensures (exists i :: 0 <= i < |s| + 1 && FirstAt(s + [last], c, i)) <==>
            (exists i :: 0 <= i < |s| && FirstAt(s, c, i)) || (last == c && KeyOf(c) !in Keys(s))
  {
    var t := s + [last];
    assert forall i :: 0 <= i < |s| ==> t[i] == s[i];
    assert forall i :: 0 <= i < |s| ==> (FirstAt(t, c, i) <==> FirstAt(s, c, i));
    assert FirstAt(t, c, |s|) <==> last == c && KeyOf(c) !in Keys(s) by {
      assert forall j :: 0 <= j < |s| ==> t[j] == s[j] && s[j] in s;
    }
  }

  /** A cookie is kept iff it stands somewhere before all others of its identity. */
  lemma {:induction false} FirstOfEachIff(s: seq<Cookie>, c: Cookie)
    ensures c in FirstOfEach(s) <==> exists i :: 0 <= i < |s| && FirstAt(s, c, i)
  {
    if s != [] {
      var before, last := s[..|s| - 1], s[|s| - 1];
      FirstOfEachIff(before, c);
      FirstAtOneMore(before, last, c);
      assert s == before + [last];
      SameKeys(before);
    }
  }

  lemma SameKeys(s: seq<Cookie>)
    ensures Keys(FirstOfEach(s)) == Keys(s)
  {
    FirstOfEachIsPart(s);
  }

  /** std::set::insert: an element that is equivalent to one in the set is dropped. */
  method Insert(s: seq<Cookie>, c: Cookie) returns (r: seq<Cookie>)
    requires IsCookieSet(s)
    ensures IsCookieSet(r)
    ensures if KeyOf(c) in Keys(s) then r == s else exists i :: 0 <= i <= |s| && r == s[..i] + [c] + s[i..]
  {
    var i := 0;
    while i < |s| && CookieLess(s[i], c)
      invariant 0 <= i <= |s|
      invariant forall k :: 0 <= k < i ==> CookieLess(s[k], c)
    {
      i := i + 1;
    }
    if i < |s| {
      ComparatorsAreOrders(s[i], c);
      ComparatorsAreOrders(c, s[i]);
    }
    if i < |s| && !CookieLess(c, s[i]) {
      assert s[i] in s && KeyOf(s[i]) == KeyOf(c);
      return s;
    }
    r := s[..i] + [c] + s[i..];
    forall k | i <= k < |s| ensures CookieLess(c, s[k]) {
      ComparatorsAreTransitive(c, s[i], s[k]);
    }
    forall k | 0 <= k < |s| ensures KeyOf(s[k]) != KeyOf(c) {
      ComparatorsAreOrders(s[k], c);
      ComparatorsAreOrders(c, s[k]);
    }
  }

  /** The set built from a vector: of each identity the first cookie is kept. */
  method SetFromRange(s: seq<Cookie>) returns (r: seq<Cookie>)
    ensures IsCookieSet(r) && Elements(r) == Elements(FirstOfEach(s))
  {
    r := [];
    for i := 0 to |s|
      invariant IsCookieSet(r) && Elements(r) == Elements(FirstOfEach(s[..i]))
    {
      assert s[..i + 1][..i] == s[..i];
      var was := r;
      r := Insert(r, s[i]);
      if KeyOf(s[i]) in Keys(was) {
        var c :| c in was && KeyOf(c) == KeyOf(s[i]);
        assert c in Elements(FirstOfEach(s[..i]));
      } else {
        assert forall c :: c in FirstOfEach(s[..i]) ==> c in Elements(was);
        assert Elements(r) == Elements(was) + {s[i]};
      }
    }
    assert s[..|s|] == s;
  }

  ghost function Elements(s: seq<Cookie>): set<Cookie> {
    set c | c in s
  }

  // ---------------------------------------------------------------------------
  // std::set_difference with the fine comparator

  /** The cookies of `a` whose identity and value are not in `gone`, in order. */
  ghost function Minus(a: seq<Cookie>, gone: set<FullKey>): (r: seq<Cookie>)
    ensures forall c :: c in r <==> c in a && FullKeyOf(c) !in gone
  {
    if a == [] then []
    else
      var c := a[|a| - 1];
      Minus(a[..|a| - 1], gone) + if FullKeyOf(c) in gone then [] else [c]
  }

  lemma MinusContents(a: seq<Cookie>, gone: set<FullKey>)
    ensures Contents(Minus(a, gone)) == Contents(a) - gone
  {
    forall k | k in Contents(a) - gone ensures k in Contents(Minus(a, gone)) {
      var c :| c in a && FullKeyOf(c) == k;
      assert c in Minus(a, gone);
    }
  }

  lemma {:induction false} MinusIsCookieSet(a: seq<Cookie>, gone: set<FullKey>)
    requires IsCookieSet(a)
    ensures IsCookieSet(Minus(a, gone))
  {
    if a != [] {
      MinusIsCookieSet(a[..|a| - 1], gone);
      var before := Minus(a[..|a| - 1], gone);
      forall k | 0 <= k < |before| ensures CookieLess(before[k], a[|a| - 1]) {
        assert before[k] in a[..|a| - 1];
      }
    }
  }

  /** Ascending in the coarse order is ascending in the fine one. */
  lemma AscendsWithValues(s: seq<Cookie>, i: nat, j: nat)
    requires IsCookieSet(s) && i < j < |s|
    ensures CookieAndValueLess(s[i], s[j])
  {
    ComparatorsAreOrders(s[i], s[j]);
  }

  /** A cookie that lies between its neighbours in the fine order is not in the set. */
  lemma NotIn(c: Cookie, s: seq<Cookie>, j: nat)
    requires IsCookieSet(s) && j <= |s|
    requires forall k :: 0 <= k < j ==> CookieAndValueLess(s[k], c)
    requires j < |s| ==> CookieAndValueLess(c, s[j])
    ensures FullKeyOf(c) !in Contents(s)
  {
    forall k | 0 <= k < |s| ensures FullKeyOf(s[k]) != FullKeyOf(c) {
      ComparatorsAreOrders(s[k], c);
      if j < k {
        AscendsWithValues(s, j, k);
        ComparatorsAreTransitive(c, s[j], s[k]);
      }
      ComparatorsAreOrders(c, s[k]);
    }
  }

  /** All of `s` comes before `c`, in the coarse order. */
  ghost predicate Precedes(s: seq<Cookie>, c: Cookie) {
    forall k :: 0 <= k < |s| ==> CookieLess(s[k], c)
  }

  /** Appending through std::inserter: a cookie beyond all of the set goes to its end. */
  method InsertLast(s: seq<Cookie>, c: Cookie) returns (r: seq<Cookie>)
    requires IsCookieSet(s) && Precedes(s, c)
    ensures IsCookieSet(r) && r == s + [c]
  {
    r := Insert(s, c);
    forall k | 0 <= k < |s| ensures KeyOf(s[k]) != KeyOf(c) {
      ComparatorsAreOrders(s[k], c);
    }
    var i :| 0 <= i <= |s| && r == s[..i] + [c] + s[i..];
    if i < |s| {
      assert r[i] == c && r[i + 1] == s[i];
      ComparatorsAreOrders(s[i], c);
    }
  }

  /** The first `j` cookies of `b` come before `c`. */
  ghost predicate Passed(b: seq<Cookie>, j: nat, c: Cookie) {
    j <= |b| && forall k :: 0 <= k < j ==> CookieAndValueLess(b[k], c)
  }

  lemma PassedByNext(a: seq<Cookie>, i: nat, b: seq<Cookie>, j: nat)
    requires IsCookieSet(a) && i + 1 < |a| && Passed(b, j, a[i])
    ensures Passed(b, j, a[i + 1])
    ensures j < |b| && FullKeyOf(a[i]) == FullKeyOf(b[j]) ==> Passed(b, j + 1, a[i + 1])
  {
    AscendsWithValues(a, i, i + 1);
    forall k | 0 <= k < j ensures CookieAndValueLess(b[k], a[i + 1]) {
      ComparatorsAreTransitive(b[k], a[i], a[i + 1]);
    }
  }

  lemma MinusStep(a: seq<Cookie>, i: nat, gone: set<FullKey>)
    requires i < |a|
    ensures Minus(a[..i + 1], gone) == Minus(a[..i], gone) + if FullKeyOf(a[i]) in gone then [] else [a[i]]
  {
    assert a[..i + 1][..i] == a[..i];
  }

  /** A cookie of `a` that the merge keeps: it is beyond all kept before. */
  lemma KeepStep(a: seq<Cookie>, i: nat, b: seq<Cookie>, j: nat)
    requires IsCookieSet(a) && IsCookieSet(b) && i < |a| && Passed(b, j, a[i])
    requires j < |b| ==> CookieAndValueLess(a[i], b[j])
    ensures Minus(a[..i + 1], Contents(b)) == Minus(a[..i], Contents(b)) + [a[i]]
    ensures Precedes(Minus(a[..i], Contents(b)), a[i])
    ensures i + 1 < |a| ==> Passed(b, j, a[i + 1])
  {
    var kept := Minus(a[..i], Contents(b));
    forall k | 0 <= k < |kept| ensures CookieLess(kept[k], a[i]) {
      assert kept[k] in a[..i];
    }
    NotIn(a[i], b, j);
    MinusStep(a, i, Contents(b));
    if i + 1 < |a| {
      PassedByNext(a, i, b, j);
    }
  }

  /** A cookie that it drops, because `b` has it with the same value. */
  lemma DropStep(a: seq<Cookie>, i: nat, b: seq<Cookie>, j: nat)
    requires IsCookieSet(a) && IsCookieSet(b) && i < |a| && j < |b| && Passed(b, j, a[i])
    requires !CookieAndValueLess(a[i], b[j]) && !CookieAndValueLess(b[j], a[i])
    ensures Minus(a[..i + 1], Contents(b)) == Minus(a[..i], Contents(b))
    ensures i + 1 < |a| ==> Passed(b, j + 1, a[i + 1])
  {
    ComparatorsAreOrders(a[i], b[j]);
    assert b[j] in b;
    MinusStep(a, i, Contents(b));
    if i + 1 < |a| {
      PassedByNext(a, i, b, j);
    }
  }

  method SetDifference(a: seq<Cookie>, b: seq<Cookie>) returns (r: seq<Cookie>)
    requires IsCookieSet(a) && IsCookieSet(b)
    ensures r == Minus(a, Contents(b)) && IsCookieSet(r)
  {
    r := [];
    var i, j := 0, 0;
    while i < |a|
      invariant 0 <= i <= |a| && 0 <= j <= |b|
      invariant r == Minus(a[..i], Contents(b)) && IsCookieSet(r)
      invariant i < |a| ==> Passed(b, j, a[i])
      decreases |a| - i + |b| - j
    {
      if j == |b| || CookieAndValueLess(a[i], b[j]) {
        KeepStep(a, i, b, j);
        r := InsertLast(r, a[i]);
        i := i + 1;
      } else if CookieAndValueLess(b[j], a[i]) {
        j := j + 1;
      } else {
        DropStep(a, i, b, j);
        i, j := i + 1, j + 1;
      }
    }
    assert a[..|a|] == a;
  }

  // ---------------------------------------------------------------------------
  // The cache

  type Url = string
  type CacheKey = (Url, string)
  type Entries = map<CacheKey, seq<Cookie>>

  function Entry(cache: Entries, key: CacheKey): seq<Cookie> {
    if key in cache then cache[key] else []
  }

  /** One call of Update: its arguments, its answers, and the cache it leaves. */
  datatype Step = Step(
    key: CacheKey, newCookies: seq<Cookie>,
    changed: bool, removed: seq<Cookie>, added: seq<Cookie>,
    after: Entries)

  /** What Update promises: it says whether the new cookies differ from the entry, first
      occurrences only, in identities or values; if they do, it replaces the entry and
      reports what went and what came, in order; other entries are left alone. */
  ghost predicate IsUpdate(cache: Entries, u: Step) {
    var was, now := Entry(cache, u.key), Entry(u.after, u.key);
    && (forall k :: k != u.key ==> Entry(u.after, k) == Entry(cache, k))
    && (u.changed <==> Contents(FirstOfEach(u.newCookies)) != Contents(was))
    && (!u.changed ==> now == was && u.removed == [] && u.added == [])
    && (u.changed ==>
          && IsCookieSet(now) && Elements(now) == Elements(FirstOfEach(u.newCookies))
          && u.removed == Minus(was, Contents(now))
          && u.added == Minus(now, Contents(was)))
  }

  /** The differences are empty exactly if the contents agree. */
  lemma NoDifference(s: seq<Cookie>, t: seq<Cookie>)
    ensures Minus(s, Contents(t)) == [] && Minus(t, Contents(s)) == [] <==> Contents(s) == Contents(t)
  {
    MinusContents(s, Contents(t));
    MinusContents(t, Contents(s));
    EmptyContents(Minus(s, Contents(t)));
    EmptyContents(Minus(t, Contents(s)));
  }

  lemma UpdateByDifferences(cache: Entries, u: Step, newSet: seq<Cookie>)
    requires IsCookieSet(newSet) && Elements(newSet) == Elements(FirstOfEach(u.newCookies))
    requires forall k :: k != u.key ==> Entry(u.after, k) == Entry(cache, k)
    requires u.removed == Minus(Entry(cache, u.key), Contents(newSet))
    requires u.added == Minus(newSet, Contents(Entry(cache, u.key)))
    requires u.changed <==> u.added != [] || u.removed != []
    requires Entry(u.after, u.key) == if u.changed then newSet else Entry(cache, u.key)
    ensures IsUpdate(cache, u)
  {
    ElementsGiveContents(newSet, FirstOfEach(u.newCookies));
    NoDifference(newSet, Entry(cache, u.key));
  }

  class CookieCache {
    var cache: Entries

    ghost predicate Valid()
      reads this
    {
      forall key :: IsCookieSet(Entry(cache, key))
    }

    constructor ()
      ensures Valid() && cache == map[]
    {
      cache := map[];
    }

    /** The two output vectors may be null; what is reported is appended to them. */
    method Update(url: Url, name: string, newCookies: seq<Cookie>,
                  outRemoved: Option<seq<Cookie>>, outAdded: Option<seq<Cookie>>)
      returns (changed: bool, outRemoved': Option<seq<Cookie>>, outAdded': Option<seq<Cookie>>, ghost step: Step)
      requires Valid()
      modifies this
      ensures Valid() && IsUpdate(old(cache), step)
      ensures step.key == (url, name) && step.newCookies == newCookies && step.after == cache && step.changed == changed
      ensures outRemoved' == if outRemoved.Some? then Some(outRemoved.value + step.removed) else None
      ensures outAdded' == if outAdded.Some? then Some(outAdded.value + step.added) else None
    {
      var key := (url, name);
      ghost var before := cache;
      if key !in cache {
        cache := cache[key := []];
      }
      var oldSet := cache[key];
      assert oldSet == Entry(before, key);
      var newSet := SetFromRange(newCookies);
      var added := SetDifference(newSet, oldSet);
      var removed := SetDifference(oldSet, newSet);
      changed, outRemoved', outAdded' := false, outRemoved, outAdded;
      assert outRemoved.Some? ==> outRemoved.value + [] == outRemoved.value;
      assert outAdded.Some? ==> outAdded.value + [] == outAdded.value;
      if added != [] || removed != [] {
        changed := true;
        cache := cache[key := newSet];
        if outRemoved.Some? {
          outRemoved' := Some(outRemoved.value + removed);
        }
        if outAdded.Some? {
          outAdded' := Some(outAdded.value + added);
        }
      }
      step := Step(key, newCookies, changed, removed, added, cache);
      UpdateByDifferences(before, step, newSet);
    }
  }

  lemma ElementsGiveContents(s: seq<Cookie>, t: seq<Cookie>)
    requires Elements(s) == Elements(t)
    ensures Contents(s) == Contents(t)
  {
    assert forall c :: c in s <==> c in Elements(s);
    assert forall c :: c in t <==> c in Elements(t);
  }

  lemma EmptyContents(s: seq<Cookie>)
    ensures Contents(s) == {} <==> s == []
  {
    if s != [] {
      assert FullKeyOf(s[0]) in Contents(s);
    }
  }

  // ---------------------------------------------------------------------------
  // Replaying the reports

  function After(h: History<Step>): Entries {
    match h
    case Start => map[]
    case Then(_, u) => u.after
  }

  ghost predicate IsHistory(h: History<Step>) {
    match h
    case Start => true
    case Then(before, u) => IsHistory(before) && IsUpdate(After(before), u)
  }

  /** The reports on `key`, replayed from nothing. */
  ghost function Replayed(h: History<Step>, key: CacheKey): set<FullKey> {
    match h
    case Start => {}
    case Then(before, u) =>
      if u.key == key then Replayed(before, key) - Contents(u.removed) + Contents(u.added) else Replayed(before, key)
  }

  /** The last vector passed for `key`. */
  function LastVector(h: History<Step>, key: CacheKey): seq<Cookie> {
    match h
    case Start => []
    case Then(before, u) => if u.key == key then u.newCookies else LastVector(before, key)
  }

  lemma OneUpdate(cache: Entries, u: Step)
    requires IsUpdate(cache, u)
    ensures Contents(Entry(u.after, u.key)) == Contents(FirstOfEach(u.newCookies))
    ensures Contents(Entry(u.after, u.key)) == Contents(Entry(cache, u.key)) - Contents(u.removed) + Contents(u.added)
    ensures Contents(u.removed) <= Contents(Entry(cache, u.key)) && Contents(u.added) !! Contents(Entry(cache, u.key))
    ensures u.changed <==> u.removed != [] || u.added != []
    ensures if u.changed then Elements(Entry(u.after, u.key)) == Elements(FirstOfEach(u.newCookies))
            else Entry(u.after, u.key) == Entry(cache, u.key)
  {
    var was, now := Entry(cache, u.key), Entry(u.after, u.key);
    if u.changed {
      ElementsGiveContents(now, FirstOfEach(u.newCookies));
      DifferencesReplay(was, now);
    }
  }

  /** Taking away what only `was` says and adding what only `now` says leads from `was` to
      `now`; if they do not say the same there is something to take away or to add. */
  lemma DifferencesReplay(was: seq<Cookie>, now: seq<Cookie>)
    ensures Contents(now) == Contents(was) - Contents(Minus(was, Contents(now))) + Contents(Minus(now, Contents(was)))
    ensures Contents(Minus(was, Contents(now))) <= Contents(was) && Contents(Minus(now, Contents(was))) !! Contents(was)
    ensures Minus(was, Contents(now)) == [] && Minus(now, Contents(was)) == [] <==> Contents(was) == Contents(now)
  {
    MinusContents(was, Contents(now));
    MinusContents(now, Contents(was));
    NoDifference(was, now);
  }

  /** The lists are in the order of the entry, without repetition; what is removed was in the
      entry, and what is added comes first among its like in the vector. */
  lemma ReportsAreOrdered(cache: Entries, u: Step)
    requires IsUpdate(cache, u) && IsCookieSet(Entry(cache, u.key))
    ensures IsCookieSet(u.removed) && IsCookieSet(u.added)
    ensures forall c :: c in u.removed ==> c in Entry(cache, u.key)
    ensures forall c :: c in u.added ==> c in FirstOfEach(u.newCookies)
  {
    if u.changed {
      var was, now := Entry(cache, u.key), Entry(u.after, u.key);
      MinusIsCookieSet(was, Contents(now));
      MinusIsCookieSet(now, Contents(was));
      assert forall c :: c in now ==> c in Elements(now);
    }
  }

  /** Over every history of updates of any entries, replaying the reports on an entry
      gives its contents, and these are what the last vector passed for it says. */
  lemma {:induction false} ReplayGivesContents(h: History<Step>, key: CacheKey)
    requires IsHistory(h)
    ensures Replayed(h, key) == Contents(Entry(After(h), key)) == Contents(FirstOfEach(LastVector(h, key)))
  {
    match h
    case Start =>
    case Then(before, u) =>
      ReplayGivesContents(before, key);
      OneUpdate(After(before), u);
  }

  /** The last vector passed for `key` that made a difference. */
  function LastChange(h: History<Step>, key: CacheKey): seq<Cookie> {
    match h
    case Start => []
    case Then(before, u) => if u.key == key && u.changed then u.newCookies else LastChange(before, key)
  }

  /** The cookies of an entry, with all their attributes, are those of the last vector that
      made a difference: a vector that makes none leaves the old attributes. */
  lemma {:induction false} EntryIsLastChange(h: History<Step>, key: CacheKey)
    requires IsHistory(h)
    ensures Elements(Entry(After(h), key)) == Elements(FirstOfEach(LastChange(h, key)))
  {
    match h
    case Start =>
    case Then(before, u) =>
      EntryIsLastChange(before, key);
      OneUpdate(After(before), u);
  }

  // ---------------------------------------------------------------------------
  // The header's account of the result

  /** The header says: some new cookie is not in the cache, or some cached cookie is not
      among the new ones, or one has changed its value. */
  ghost predicate DocumentedChange(was: seq<Cookie>, newCookies: seq<Cookie>) {
    Contents(newCookies) != Contents(was)
  }

  /** Two cookies with one identity but different values. */
  ghost predicate Conflicting(s: seq<Cookie>) {
    exists c, d :: c in s && d in s && KeyOf(c) == KeyOf(d) && FullKeyOf(c) != FullKeyOf(d)
  }

  lemma WithoutConflict(s: seq<Cookie>)
    requires !Conflicting(s)
    ensures Contents(FirstOfEach(s)) == Contents(s)
  {
    FirstOfEachIsPart(s);
    forall k | k in Contents(s) ensures k in Contents(FirstOfEach(s)) {
      var c :| c in s && FullKeyOf(c) == k;
      var d :| d in FirstOfEach(s) && KeyOf(d) == KeyOf(c);
      assert d in s && FullKeyOf(d) == k;
    }
  }

  lemma CookieSetHasNoConflict(s: seq<Cookie>)
    requires IsCookieSet(s)
    ensures !Conflicting(s)
  {
    forall c, d | c in s && d in s && KeyOf(c) == KeyOf(d) ensures c == d {
      var i :| 0 <= i < |s| && s[i] == c;
      var j :| 0 <= j < |s| && s[j] == d;
      ComparatorsAreOrders(c, d);
      ComparatorsAreOrders(d, c);
    }
  }

  /** The result is the documented one unless the vector has two cookies with one identity
      and different values while its first cookies of each identity are what the entry
      says already. Then the others are not in the cache, and are not noticed. */
  lemma DocumentedChangeIff(cache: Entries, u: Step)
    requires IsUpdate(cache, u) && IsCookieSet(Entry(cache, u.key))
    ensures (u.changed <==> DocumentedChange(Entry(cache, u.key), u.newCookies)) <==>
            !(Conflicting(u.newCookies) && Contents(FirstOfEach(u.newCookies)) == Contents(Entry(cache, u.key)))
  {
    var was := Entry(cache, u.key);
    CookieSetHasNoConflict(was);
    if Conflicting(u.newCookies) {
      if !DocumentedChange(was, u.newCookies) {
        SameContentsSameConflict(u.newCookies, was);
      }
    } else {
      WithoutConflict(u.newCookies);
    }
  }

  /** For instance: `b` has the identity of the cached `a` and another value, and is passed
      after `a`. The header promises true, the code returns false. */
  lemma SecondValueIsNotNoticed(cache: Entries, u: Step, a: Cookie, b: Cookie)
    requires KeyOf(a) == KeyOf(b) && a.value != b.value
    requires Entry(cache, u.key) == [a] && u.newCookies == [a, b] && IsUpdate(cache, u)
    ensures !u.changed && DocumentedChange(Entry(cache, u.key), u.newCookies)
  {
    FirstOfTwo(a, b);
    assert FullKeyOf(b) in Contents([a, b]) by {
      assert b in [a, b];
    }
    assert FullKeyOf(b) !in Contents([a]);
  }

  lemma FirstOfTwo(a: Cookie, b: Cookie)
    requires KeyOf(a) == KeyOf(b)
    ensures FirstOfEach([a, b]) == [a]
  {
    assert [a][..0] == [];
    assert FirstOfEach([a]) == [a];
    assert [a, b][..1] == [a];
  }

  lemma SameContentsSameConflict(s: seq<Cookie>, t: seq<Cookie>)
    requires Contents(s) == Contents(t) && Conflicting(s)
    ensures Conflicting(t)
  {
    var c, d :| c in s && d in s && KeyOf(c) == KeyOf(d) && FullKeyOf(c) != FullKeyOf(d);
    assert FullKeyOf(c) in Contents(s) && FullKeyOf(d) in Contents(s);
    var c' :| c' in t && FullKeyOf(c') == FullKeyOf(c);
    var d' :| d' in t && FullKeyOf(d') == FullKeyOf(d);
  }
}
