/** The LRU cache of authorization decisions: its recency list as a value, what each operation
    does to that list, and the mutable map-plus-list that implements it. */
module DecisionCache {
  import opened Options

  const NUL: char := '\0'

  predicate NulFree(s: string) {
    NUL !in s
  }

  predicate NulFreeRequest(sub: string, obj: string, act: string) {
    NulFree(sub) && NulFree(obj) && NulFree(act)
  }

  function CacheKey(sub: string, obj: string, act: string): string {
    sub + [NUL] + obj + [NUL] + act
  }

  function SubjectPrefix(sub: string): string {
    sub + [NUL]
  }

  // ---------------------------------------------------------------- keys

  lemma FirstNulIsUnique(a: string, b: string, restA: string, restB: string)
    requires NulFree(a) && NulFree(b) && a + [NUL] + restA == b + [NUL] + restB
    ensures a == b && restA == restB
  {
    var whole := a + [NUL] + restA;
    assert whole[|a|] == NUL && whole[|b|] == NUL;
    assert forall i :: 0 <= i < |a| ==> whole[i] == a[i] != NUL;
    assert forall i :: 0 <= i < |b| ==> whole[i] == b[i] != NUL;
    assert a == whole[..|a|] && b == whole[..|b|];
    assert restA == whole[|a| + 1..] && restB == whole[|b| + 1..];
  }

  lemma CacheKeyInjective(s1: string, o1: string, a1: string, s2: string, o2: string, a2: string)
    requires NulFreeRequest(s1, o1, a1) && NulFreeRequest(s2, o2, a2)
    requires CacheKey(s1, o1, a1) == CacheKey(s2, o2, a2)
    ensures s1 == s2 && o1 == o2 && a1 == a2
  {
    var rest1, rest2 := o1 + [NUL] + a1, o2 + [NUL] + a2;
    assert CacheKey(s1, o1, a1) == s1 + [NUL] + rest1;
    assert CacheKey(s2, o2, a2) == s2 + [NUL] + rest2;
    FirstNulIsUnique(s1, s2, rest1, rest2);
    FirstNulIsUnique(o1, o2, a1, a2);
  }

  /** The prefix test of `invalidateSub` recognises exactly the keys of that subject. */
  lemma PrefixRecognisesSubject(sub: string, s: string, o: string, a: string)
    requires NulFree(sub) && NulFreeRequest(s, o, a)
    ensures SubjectPrefix(sub) <= CacheKey(s, o, a) <==> s == sub
  {
    var key := CacheKey(s, o, a);
    if SubjectPrefix(sub) <= key {
      var tail := key[|sub| + 1..];
      assert key == sub + [NUL] + tail;
      assert key == s + [NUL] + (o + [NUL] + a);
      FirstNulIsUnique(sub, s, tail, o + [NUL] + a);
    }
  }

  // ---------------------------------------------------------------- recency list

  datatype Entry = Entry(key: string, value: bool)

  /** Most recently used entry first. */
  type Recency = seq<Entry>

  function Lookup(l: Recency, key: string): Option<bool> {
    if l == [] then None
    else if l[0].key == key then Some(l[0].value)
    else Lookup(l[1..], key)
  }

  function Without(l: Recency, key: string): (r: Recency)
    ensures |r| <= |l|
  {
    if l == [] then []
    else if l[0].key == key then Without(l[1..], key)
    else [l[0]] + Without(l[1..], key)
  }

  function WithoutPrefix(l: Recency, prefix: string): (r: Recency)
    ensures |r| <= |l|
  {
    if l == [] then []
    else if prefix <= l[0].key then WithoutPrefix(l[1..], prefix)
    else [l[0]] + WithoutPrefix(l[1..], prefix)
  }

  /** A hit moves the entry to the front. */
  function GotKey(l: Recency, key: string): (Recency, Option<bool>) {
    match Lookup(l, key)
    case None => (l, None)
    case Some(v) => ([Entry(key, v)] + Without(l, key), Some(v))
  }

  /** A present key is overwritten and promoted; a new one evicts the last entry of a full list. */
  function PutKey(capacity: nat, l: Recency, key: string, value: bool): Recency
    requires capacity > 0
  {
    if Lookup(l, key).Some? then [Entry(key, value)] + Without(l, key)
    else if |l| >= capacity then [Entry(key, value)] + l[..|l| - 1]
    else [Entry(key, value)] + l
  }

  predicate Bypassed(capacity: nat, sub: string, obj: string, act: string) {
    capacity == 0 || !NulFreeRequest(sub, obj, act)
  }

  function Got(capacity: nat, l: Recency, sub: string, obj: string, act: string): (Recency, Option<bool>) {
    if Bypassed(capacity, sub, obj, act) then (l, None) else GotKey(l, CacheKey(sub, obj, act))
  }

  function AfterPut(capacity: nat, l: Recency, sub: string, obj: string, act: string, value: bool): Recency {
    if Bypassed(capacity, sub, obj, act) then l else PutKey(capacity, l, CacheKey(sub, obj, act), value)
  }

  function AfterInvalidate(capacity: nat, l: Recency, sub: string): Recency {
    if capacity == 0 then l else WithoutPrefix(l, SubjectPrefix(sub))
  }

  function AfterFlush(capacity: nat, l: Recency): Recency {
    if capacity == 0 then l else []
  }

  // ---------------------------------------------------------------- what later lookups see

  lemma {:induction false} LookupWithout(l: Recency, dead: string, key: string)
    ensures Lookup(Without(l, dead), key) == if key == dead then None else Lookup(l, key)
  {
    if l == [] {
    } else {
      LookupWithout(l[1..], dead, key);
      assert l[0].key != dead ==> Without(l, dead)[1..] == Without(l[1..], dead);
    }
  }

  lemma {:induction false} LookupWithoutPrefix(l: Recency, prefix: string, key: string)
    ensures Lookup(WithoutPrefix(l, prefix), key) == if prefix <= key then None else Lookup(l, key)
  {
    if l == [] {
    } else {
      LookupWithoutPrefix(l[1..], prefix, key);
      assert !(prefix <= l[0].key) ==> WithoutPrefix(l, prefix)[1..] == WithoutPrefix(l[1..], prefix);
    }
  }

  lemma {:induction false} LookupInPrefix(l: Recency, n: nat, key: string)
    requires n <= |l|
    ensures Lookup(l[..n], key).Some? ==> Lookup(l[..n], key) == Lookup(l, key)
  {
    if n > 0 {
      assert l[..n][1..] == l[1..][..n - 1];
      LookupInPrefix(l[1..], n - 1, key);
    }
  }

  lemma {:induction false} LookupCons(e: Entry, l: Recency, key: string)
    ensures Lookup([e] + l, key) == if e.key == key then Some(e.value) else Lookup(l, key)
  {
    assert ([e] + l)[1..] == l;
  }

  /** After a put, a lookup sees the stored value for that key, and for any other key the old
      value or a miss. */
  lemma {:induction false} LookupAfterPut(capacity: nat, l: Recency, stored: string, value: bool, key: string)
    requires capacity > 0
    ensures var seen := Lookup(PutKey(capacity, l, stored, value), key);
            if key == stored then seen == Some(value) else seen == None || seen == Lookup(l, key)
  {
    var e := Entry(stored, value);
    if Lookup(l, stored).Some? {
      LookupCons(e, Without(l, stored), key);
      LookupWithout(l, stored, key);
    } else if |l| >= capacity {
      LookupCons(e, l[..|l| - 1], key);
      LookupInPrefix(l, |l| - 1, key);
    } else {
      LookupCons(e, l, key);
    }
  }

  lemma {:induction false} LookupAfterGet(l: Recency, wanted: string, key: string)
    ensures Lookup(GotKey(l, wanted).0, key) == Lookup(l, key)
  {
    if Lookup(l, wanted).Some? {
      LookupCons(Entry(wanted, Lookup(l, wanted).value), Without(l, wanted), key);
      LookupWithout(l, wanted, key);
    }
  }

  /** `invalidateSub` forgets exactly the entries of that subject. */
  lemma {:induction false} LookupAfterInvalidate(capacity: nat, l: Recency, sub: string, s: string, o: string,
                                                 a: string)
    requires capacity > 0 && NulFree(sub) && NulFreeRequest(s, o, a)
    ensures Lookup(AfterInvalidate(capacity, l, sub), CacheKey(s, o, a))
         == if s == sub then None else Lookup(l, CacheKey(s, o, a))
  {
    PrefixRecognisesSubject(sub, s, o, a);
    LookupWithoutPrefix(l, SubjectPrefix(sub), CacheKey(s, o, a));
  }

  // ---------------------------------------------------------------- LRU as a stack algorithm

  /** The keys of `small` are a prefix of the keys of `big`. */
  ghost predicate KeyPrefix(small: Recency, big: Recency) {
    small == [] || (big != [] && small[0].key == big[0].key && KeyPrefix(small[1..], big[1..]))
  }

  lemma {:induction false} LookupUnderKeyPrefix(small: Recency, big: Recency, key: string)
    requires KeyPrefix(small, big) && Lookup(small, key).Some?
    ensures Lookup(big, key).Some?
  {
    if small[0].key != key { LookupUnderKeyPrefix(small[1..], big[1..], key); }
  }

  lemma {:induction false} KeyPrefixCons(e: Entry, small: Recency, f: Entry, big: Recency)
    requires KeyPrefix(small, big) && e.key == f.key
    ensures KeyPrefix([e] + small, [f] + big)
  {
    assert ([e] + small)[1..] == small && ([f] + big)[1..] == big;
  }

  lemma {:induction false} WithoutKeepsKeyPrefix(small: Recency, big: Recency, key: string)
    requires KeyPrefix(small, big)
    ensures KeyPrefix(Without(small, key), Without(big, key))
  {
    if small == [] {
    } else {
      WithoutKeepsKeyPrefix(small[1..], big[1..], key);
      KeyPrefixCons(small[0], Without(small[1..], key), big[0], Without(big[1..], key));
    }
  }

  lemma {:induction false} WithoutPrefixKeepsKeyPrefix(small: Recency, big: Recency, prefix: string)
    requires KeyPrefix(small, big)
    ensures KeyPrefix(WithoutPrefix(small, prefix), WithoutPrefix(big, prefix))
  {
    if small == [] {
    } else {
      WithoutPrefixKeepsKeyPrefix(small[1..], big[1..], prefix);
      KeyPrefixCons(small[0], WithoutPrefix(small[1..], prefix), big[0], WithoutPrefix(big[1..], prefix));
    }
  }

  function Take(l: Recency, n: nat): Recency {
    if |l| <= n then l else l[..n]
  }

  lemma {:induction false} TakeKeepsKeyPrefix(small: Recency, m: nat, big: Recency, n: nat)
    requires KeyPrefix(small, big) && m <= n
    ensures KeyPrefix(Take(small, m), Take(big, n))
  {
    if small != [] && m > 0 {
      TakeKeepsKeyPrefix(small[1..], m - 1, big[1..], n - 1);
      assert Take(small, m)[1..] == Take(small[1..], m - 1);
      assert Take(big, n)[1..] == Take(big[1..], n - 1);
    }
  }

  lemma {:induction false} WithoutLength(l: Recency, key: string)
    ensures Lookup(l, key).None? ==> Without(l, key) == l
    ensures Lookup(l, key).Some? ==> |Without(l, key)| < |l|
  {
    if l == [] {
    } else {
      WithoutLength(l[1..], key);
    }
  }

  /** A put keeps, behind the stored entry, as many of the other entries as fit, in order. */
  lemma {:induction false} PutKeyShape(capacity: nat, l: Recency, key: string, value: bool)
    requires capacity > 0 && |l| <= capacity
    ensures PutKey(capacity, l, key, value) == [Entry(key, value)] + Take(Without(l, key), capacity - 1)
    ensures |PutKey(capacity, l, key, value)| <= capacity
  {
    WithoutLength(l, key);
  }

  lemma {:induction false} GotKeyShape(capacity: nat, l: Recency, key: string)
    requires capacity > 0 && |l| <= capacity && Lookup(l, key).Some?
    ensures GotKey(l, key).0 == [Entry(key, Lookup(l, key).value)] + Take(Without(l, key), capacity - 1)
    ensures |GotKey(l, key).0| <= capacity
  {
    WithoutLength(l, key);
  }

  /** The list after one memoised lookup: get, and put of `value` on a miss. */
  function Touched(capacity: nat, l: Recency, sub: string, obj: string, act: string, value: bool): Recency {
    var (promoted, hit) := Got(capacity, l, sub, obj, act);
    if hit.Some? then promoted else AfterPut(capacity, l, sub, obj, act, value)
  }

  lemma TouchedShape(capacity: nat, l: Recency, sub: string, obj: string, act: string, value: bool) returns (v: bool)
    requires !Bypassed(capacity, sub, obj, act) && |l| <= capacity
    ensures var key := CacheKey(sub, obj, act);
            Touched(capacity, l, sub, obj, act, value) == [Entry(key, v)] + Take(Without(l, key), capacity - 1)
  {
    var key := CacheKey(sub, obj, act);
    if Lookup(l, key).Some? {
      v := Lookup(l, key).value;
      GotKeyShape(capacity, l, key);
    } else {
      v := value;
      PutKeyShape(capacity, l, key, value);
    }
  }

  /** One lookup in both caches keeps the smaller cache's keys a prefix of the larger's. */
  lemma {:induction false} TouchKeepsInclusion(c: nat, small: Recency, v: bool, C: nat, big: Recency, w: bool,
                            sub: string, obj: string, act: string)
    requires c <= C && |small| <= c && |big| <= C && KeyPrefix(small, big)
    ensures KeyPrefix(Touched(c, small, sub, obj, act, v), Touched(C, big, sub, obj, act, w))
  {
    if !Bypassed(c, sub, obj, act) {
      var key := CacheKey(sub, obj, act);
      var v' := TouchedShape(c, small, sub, obj, act, v);
      var w' := TouchedShape(C, big, sub, obj, act, w);
      WithoutKeepsKeyPrefix(small, big, key);
      TakeKeepsKeyPrefix(Without(small, key), c - 1, Without(big, key), C - 1);
      KeyPrefixCons(Entry(key, v'), Take(Without(small, key), c - 1), Entry(key, w'), Take(Without(big, key), C - 1));
    }
  }

  // ---------------------------------------------------------------- the mutable cache

  class Element {
    const key: string
    var value: bool

    constructor (key: string, value: bool)
      ensures this.key == key && this.value == value
    {
      this.key := key;
      this.value := value;
    }
  }

  /** The entries a list of elements holds. */
  ghost function Entries(order: seq<Element>): (l: Recency)
    reads order
    ensures |l| == |order|
  {
    if order == [] then []
    else [Entry(order[0].key, order[0].value)] + Entries(order[1..])
  }

  /** `list.Remove` of one element. */
  function Unlinked(order: seq<Element>, el: Element): seq<Element> {
    if order == [] then []
    else if order[0] == el then Unlinked(order[1..], el)
    else [order[0]] + Unlinked(order[1..], el)
  }

  ghost predicate Distinct(order: seq<Element>) {
    forall i, j :: 0 <= i < j < |order| ==> order[i] != order[j]
  }

  /** Elements are determined by their keys. */
  ghost predicate Keyed(order: seq<Element>, el: Element) {
    forall e :: e in order && e.key == el.key ==> e == el
  }

  lemma {:induction false} EntriesCons(el: Element, order: seq<Element>)
    ensures Entries([el] + order) == [Entry(el.key, el.value)] + Entries(order)
  {
    assert ([el] + order)[1..] == order;
  }

  lemma DistinctCons(el: Element, order: seq<Element>)
    requires Distinct(order) && el !in order
    ensures Distinct([el] + order)
  {
  }

  lemma {:induction false} UnlinkedEntries(order: seq<Element>, el: Element)
    requires Keyed(order, el)
    ensures Entries(Unlinked(order, el)) == Without(Entries(order), el.key)
  {
    if order == [] {
    } else {
      UnlinkedEntries(order[1..], el);
      assert order[0] in order;
      assert Entries(order)[1..] == Entries(order[1..]);
      EntriesCons(order[0], Unlinked(order[1..], el));
    }
  }

  lemma {:induction false} UnlinkedMembers(order: seq<Element>, el: Element)
    ensures forall e :: e in Unlinked(order, el) <==> e in order && e != el
  {
    if order == [] {
    } else {
      UnlinkedMembers(order[1..], el);
    }
  }

  lemma {:induction false} UnlinkedDistinct(order: seq<Element>, el: Element)
    requires Distinct(order)
    ensures Distinct(Unlinked(order, el))
    ensures |Unlinked(order, el)| == if el in order then |order| - 1 else |order|
  {
    if order == [] {
    } else {
      UnlinkedDistinct(order[1..], el);
      UnlinkedMembers(order[1..], el);
      if order[0] != el { DistinctCons(order[0], Unlinked(order[1..], el)); }
    }
  }

  lemma {:induction false} UnlinkedSubset(order: seq<Element>, el: Element)
    ensures forall i :: 0 <= i < |Unlinked(order, el)| ==>
              Unlinked(order, el)[i] in order && Unlinked(order, el)[i] != el
  {
    if order == [] {
    } else {
      UnlinkedSubset(order[1..], el);
    }
  }

  /** `list.MoveToFront` of one element. */
  function Promoted(order: seq<Element>, el: Element): seq<Element> {
    [el] + Unlinked(order, el)
  }

  lemma PromotedOrder(order: seq<Element>, el: Element)
    requires Distinct(order) && el in order
    ensures Distinct(Promoted(order, el)) && |Promoted(order, el)| == |order|
    ensures forall e :: e in order ==> e in Promoted(order, el)
    ensures forall i :: 0 <= i < |Promoted(order, el)| ==> Promoted(order, el)[i] in order
  {
    UnlinkedDistinct(order, el);
    UnlinkedMembers(order, el);
    UnlinkedSubset(order, el);
    DistinctCons(el, Unlinked(order, el));
    forall e | e in order ensures e in Promoted(order, el) {
      if e != el { assert e in Unlinked(order, el); }
    }
  }

  lemma {:induction false} PromotedEntries(order: seq<Element>, el: Element)
    requires Keyed(order, el)
    ensures Entries(Promoted(order, el)) == [Entry(el.key, el.value)] + Without(Entries(order), el.key)
  {
    UnlinkedEntries(order, el);
    EntriesCons(el, Unlinked(order, el));
  }

  lemma {:induction false} EntriesHit(order: seq<Element>, el: Element)
    requires el in order && Keyed(order, el)
    ensures Lookup(Entries(order), el.key) == Some(el.value)
  {
    assert Entries(order)[1..] == Entries(order[1..]);
    assert order[0] in order;
    if order[0] != el { EntriesHit(order[1..], el); }
  }

  lemma {:induction false} EntriesMiss(order: seq<Element>, key: string)
    requires forall e :: e in order ==> e.key != key
    ensures Lookup(Entries(order), key) == None
  {
    if order == [] {
    } else {
      assert order[0] in order;
      assert Entries(order)[1..] == Entries(order[1..]);
      EntriesMiss(order[1..], key);
    }
  }

  lemma {:induction false} EntriesSnoc(order: seq<Element>)
    requires order != []
    ensures Entries(order[..|order| - 1]) == Entries(order)[..|order| - 1]
  {
    if |order| == 1 {
    } else {
      EntriesSnoc(order[1..]);
      assert order[..|order| - 1][1..] == order[1..][..|order| - 2];
    }
  }

  lemma {:induction false} EntriesWithoutPrefix(order: seq<Element>, prefix: string)
    requires forall e :: e in order ==> !(prefix <= e.key)
    ensures WithoutPrefix(Entries(order), prefix) == Entries(order)
  {
    if order == [] {
    } else {
      assert order[0] in order;
      assert Entries(order)[1..] == Entries(order[1..]);
      EntriesWithoutPrefix(order[1..], prefix);
    }
  }

  lemma {:induction false} WithoutPrefixAbsorbs(l: Recency, key: string, prefix: string)
    requires prefix <= key
    ensures WithoutPrefix(Without(l, key), prefix) == WithoutPrefix(l, prefix)
  {
    if l == [] {
    } else {
      WithoutPrefixAbsorbs(l[1..], key, prefix);
      assert l[0].key != key ==> Without(l, key)[1..] == Without(l[1..], key);
    }
  }

  class Cache {
    const maxSize: nat
    var items: map<string, Element>
    var order: seq<Element>

    /** The map and the list hold the same elements, each once, under their own keys. */
    ghost predicate Valid()
      reads this
    {
      && |order| <= maxSize
      && Distinct(order)
      && (forall e :: e in order ==> e.key in items && items[e.key] == e)
      && (forall k :: k in items ==> items[k] in order && items[k].key == k)
    }

    ghost function Contents(): Recency
      reads this, order
    {
      Entries(order)
    }

    constructor (maxSize: nat)
      ensures Valid() && this.maxSize == maxSize && Contents() == [] && order == []
    {
      this.maxSize := maxSize;
      items := map[];
      order := [];
    }

    lemma {:induction false} MapAgreesWithList(key: string)
      requires Valid()
      ensures Lookup(Contents(), key) == if key in items then Some(items[key].value) else None
    {
      if key in items { EntriesHit(order, items[key]); } else { EntriesMiss(order, key); }
    }

    method Get(sub: string, obj: string, act: string) returns (value: bool, ok: bool)
      requires Valid()
      modifies this`order
      ensures Valid() && (forall e :: e in order ==> e in old(order)) && (!ok ==> order == old(order))
      ensures Contents() == Got(maxSize, old(Contents()), sub, obj, act).0
      ensures Got(maxSize, old(Contents()), sub, obj, act).1 == if ok then Some(value) else None
    {
      if maxSize == 0 || !NulFreeRequest(sub, obj, act) {
        return false, false;
      }
      var key := CacheKey(sub, obj, act);
      MapAgreesWithList(key);
      if key !in items {
        return false, false;
      }
      var el := items[key];
      MoveToFront(el);
      return el.value, true;
    }

    method MoveToFront(el: Element)
      requires Valid() && el in order
      modifies this`order
      ensures Valid() && (forall e :: e in order ==> e in old(order))
      ensures Contents() == [Entry(el.key, el.value)] + Without(old(Contents()), el.key)
    {
      PromotedOrder(order, el);
      PromotedEntries(order, el);
      order := Promoted(order, el);
    }

    method Put(sub: string, obj: string, act: string, value: bool)
      requires Valid()
      modifies this, order
      ensures Valid() && (forall e :: e in order ==> e in old(order) || fresh(e))
      ensures Contents() == AfterPut(maxSize, old(Contents()), sub, obj, act, value)
    {
      if maxSize == 0 || !NulFreeRequest(sub, obj, act) {
        return;
      }
      var key := CacheKey(sub, obj, act);
      MapAgreesWithList(key);
      if key in items {
        Overwrite(items[key], value);
        return;
      }
      if |order| >= maxSize {
        EvictLRU();
      }
      PushFront(key, value);
    }

    /** The entry is changed through the pointer the map holds, then promoted. */
    method Overwrite(el: Element, value: bool)
      requires Valid() && el in order
      modifies this`order, el
      ensures Valid() && (forall e :: e in order ==> e in old(order))
      ensures Contents() == [Entry(el.key, value)] + Without(old(Contents()), el.key)
    {
      UnlinkedEntries(order, el);
      UnlinkedMembers(order, el);
      el.value := value;
      UnlinkedEntries(order, el);
      MoveToFront(el);
    }

    method PushFront(key: string, value: bool)
      requires Valid() && key !in items && |order| < maxSize
      modifies this
      ensures Valid() && (forall e :: e in order ==> e in old(order) || fresh(e))
      ensures Contents() == [Entry(key, value)] + old(Contents())
    {
      var el := new Element(key, value);
      EntriesCons(el, order);
      DistinctCons(el, order);
      order := [el] + order;
      items := items[key := el];
    }

    /** Removes exactly the least recently used entry. */
    method EvictLRU()
      requires Valid() && order != []
      modifies this
      ensures Valid()
      ensures order == old(order[..|order| - 1]) && items == old(items - {order[|order| - 1].key})
      ensures Contents() == old(Contents()[..|order| - 1])
    {
      EntriesSnoc(order);
      var tail := order[|order| - 1];
      order := order[..|order| - 1];
      items := items - {tail.key};
    }

    /** Walks the map in no particular order, removing from both structures while it iterates. */
    method InvalidateSub(sub: string)
      requires Valid()
      modifies this
      ensures Valid() && (forall e :: e in order ==> e in old(order))
      ensures Contents() == AfterInvalidate(maxSize, old(Contents()), sub)
    {
      if maxSize == 0 {
        return;
      }
      var prefix := SubjectPrefix(sub);
      var todo := items.Keys;
      while todo != {}
        invariant Valid() && todo <= items.Keys
        invariant forall e :: e in order ==> e in old(order)
        invariant forall k :: k in items && prefix <= k ==> k in todo
        invariant WithoutPrefix(Contents(), prefix) == WithoutPrefix(old(Contents()), prefix)
        decreases todo
      {
        var key :| key in todo;
        todo := todo - {key};
        if |key| >= |prefix| && key[..|prefix|] == prefix {
          WithoutPrefixAbsorbs(Contents(), key, prefix);
          Unlink(items[key]);
        }
      }
      forall e | e in order ensures !(prefix <= e.key) { assert e.key in items; }
      EntriesWithoutPrefix(order, prefix);
    }

    method Unlink(el: Element)
      requires Valid() && el in order
      modifies this
      ensures Valid() && (forall e :: e in order ==> e in old(order)) && items == old(items) - {el.key}
      ensures Contents() == Without(old(Contents()), el.key)
    {
      UnlinkedDistinct(order, el);
      UnlinkedMembers(order, el);
      UnlinkedEntries(order, el);
      order := Unlinked(order, el);
      items := items - {el.key};
    }

    method Flush()
      requires Valid()
      modifies this
      ensures Valid() && order == []
      ensures Contents() == AfterFlush(maxSize, old(Contents()))
    {
      if maxSize == 0 {
        return;
      }
      items := map[];
      order := [];
    }
  }
}
