/** The least-recently-used cache behind sticky execution (src/internal/lru_cache.h): a move-to-front
    list as specification, the list-and-index class refining it, and inclusion between capacities. */
module Lru {
  import opened Basics

  // ---- Specification: a list, most recently used first -------------------------------------------

  datatype Entry<K, V> = Entry(key: K, value: V)

  function Lookup<K(==), V>(es: seq<Entry<K, V>>, k: K): Option<V> {
    if es == [] then None else if es[0].key == k then Some(es[0].value) else Lookup(es[1..], k)
  }

  function Remove<K(==), V>(es: seq<Entry<K, V>>, k: K): seq<Entry<K, V>> {
    if es == [] then [] else if es[0].key == k then Remove(es[1..], k) else [es[0]] + Remove(es[1..], k)
  }

  function Touch<K(==), V>(es: seq<Entry<K, V>>, k: K): seq<Entry<K, V>> {
    match Lookup(es, k)
    case Some(v) => [Entry(k, v)] + Remove(es, k)
    case None => es
  }

  /** Capacity 0 means unbounded. */
  function Trim<T>(es: seq<T>, capacity: nat): seq<T> {
    if capacity != 0 && |es| > capacity then es[..capacity] else es
  }

  function Store<K(==), V>(es: seq<Entry<K, V>>, k: K, v: V, capacity: nat): seq<Entry<K, V>> {
    Trim([Entry(k, v)] + Remove(es, k), capacity)
  }

  predicate Distinct<K(==), V>(es: seq<Entry<K, V>>) {
    forall i, j :: 0 <= i < j < |es| ==> es[i].key != es[j].key
  }

  predicate Within<T>(es: seq<T>, capacity: nat) {
    capacity == 0 || |es| <= capacity
  }

  datatype Use<K, V> = Get(key: K) | Put(key: K, value: V) | Erase(key: K)

  function Apply<K(==), V>(es: seq<Entry<K, V>>, use: Use<K, V>, capacity: nat): seq<Entry<K, V>> {
    match use
    case Get(k) => Touch(es, k)
    case Put(k, v) => Store(es, k, v, capacity)
    case Erase(k) => Remove(es, k)
  }

  function After<K(==), V>(uses: seq<Use<K, V>>, capacity: nat): seq<Entry<K, V>> {
    if uses == [] then [] else Apply(After(uses[..|uses| - 1], capacity), uses[|uses| - 1], capacity)
  }

  // ---- Facts about the list ----------------------------------------------------------------------

  lemma {:induction false} LookupMember<K, V>(es: seq<Entry<K, V>>, k: K)
    ensures Lookup(es, k).None? <==> forall i :: 0 <= i < |es| ==> es[i].key != k
    ensures Lookup(es, k).Some? ==> Entry(k, Lookup(es, k).value) in es
  {
    if es != [] && es[0].key != k {
      LookupMember(es[1..], k);
      assert forall i :: 1 <= i < |es| ==> es[i] == es[1..][i - 1];
    }
  }

  lemma {:induction false} RemoveMembers<K, V>(es: seq<Entry<K, V>>, k: K)
    ensures forall e :: e in Remove(es, k) ==> e in es && e.key != k
    ensures forall e :: e in es && e.key != k ==> e in Remove(es, k)
  {
    if es != [] {
      RemoveMembers(es[1..], k);
      assert es == [es[0]] + es[1..];
    }
  }

  lemma {:induction false} RemoveAbsent<K, V>(es: seq<Entry<K, V>>, k: K)
    requires forall i :: 0 <= i < |es| ==> es[i].key != k
    ensures Remove(es, k) == es
  {
    if es != [] {
      RemoveAbsent(es[1..], k);
    }
  }

  lemma {:induction false} RemoveCounts<K, V>(es: seq<Entry<K, V>>, k: K)
    requires Distinct(es)
    ensures Lookup(es, k).Some? ==> |Remove(es, k)| == |es| - 1
    ensures Lookup(es, k).None? ==> Remove(es, k) == es
  {
    LookupMember(es, k);
    if Lookup(es, k).None? {
      RemoveAbsent(es, k);
    } else if es[0].key == k {
      RemoveAbsent(es[1..], k);
    } else {
      RemoveCounts(es[1..], k);
    }
  }

  lemma TailDiffers<K, V>(es: seq<Entry<K, V>>, x: Entry<K, V>)
    requires es != [] && Distinct(es) && x in es[1..]
    ensures x.key != es[0].key
  {
    var i :| 0 <= i < |es[1..]| && es[1..][i] == x;
    assert es[i + 1] == x;
  }

  lemma {:induction false} RemoveDistinct<K, V>(es: seq<Entry<K, V>>, k: K)
    requires Distinct(es)
    ensures Distinct(Remove(es, k))
  {
    if es != [] {
      RemoveDistinct(es[1..], k);
      if es[0].key != k {
        var rest := Remove(es[1..], k);
        RemoveMembers(es[1..], k);
        forall x | x in rest
          ensures x.key != es[0].key
        {
          TailDiffers(es, x);
        }
        FrontDistinct(es[0], rest);
      }
    }
  }

  lemma RemoveKeeps<K, V>(es: seq<Entry<K, V>>, k: K)
    requires Distinct(es)
    ensures Distinct(Remove(es, k)) && forall e :: e in Remove(es, k) ==> e.key != k
    ensures Lookup(es, k).Some? ==> |Remove(es, k)| == |es| - 1
    ensures Lookup(es, k).None? ==> Remove(es, k) == es
  {
    RemoveDistinct(es, k);
    RemoveMembers(es, k);
    RemoveCounts(es, k);
  }

  lemma ApplyKeeps<K, V>(es: seq<Entry<K, V>>, use: Use<K, V>, capacity: nat)
    requires Distinct(es) && Within(es, capacity)
    ensures Distinct(Apply(es, use, capacity)) && Within(Apply(es, use, capacity), capacity)
  {
    RemoveKeeps(es, use.key);
    if use.Get? && Lookup(es, use.key).Some? {
      LookupMember(es, use.key);
      FrontDistinct(Entry(use.key, Lookup(es, use.key).value), Remove(es, use.key));
    }
    if use.Put? {
      FrontDistinct(Entry(use.key, use.value), Remove(es, use.key));
    }
  }

  lemma FrontDistinct<K, V>(e: Entry<K, V>, es: seq<Entry<K, V>>)
    requires Distinct(es) && forall x :: x in es ==> x.key != e.key
    ensures Distinct([e] + es)
  {
    var all := [e] + es;
    forall i, j | 0 <= i < j < |all|
      ensures all[i].key != all[j].key
    {
      assert all[j] == es[j - 1] && all[j] in es;
      assert i > 0 ==> all[i] == es[i - 1];
    }
  }

  /** In every reachable cache keys are unique and the capacity is respected. */
  lemma {:induction false} AlwaysWithin<K, V>(uses: seq<Use<K, V>>, capacity: nat)
    ensures Distinct(After(uses, capacity)) && Within(After(uses, capacity), capacity)
  {
    if uses != [] {
      AlwaysWithin(uses[..|uses| - 1], capacity);
      ApplyKeeps(After(uses[..|uses| - 1], capacity), uses[|uses| - 1], capacity);
    }
  }

  // ---- What each use does to a lookup --------------------------------------------------------------

  lemma {:induction false} LookupRemove<K, V>(es: seq<Entry<K, V>>, k: K, x: K)
    ensures Lookup(Remove(es, k), x) == if x == k then None else Lookup(es, x)
  {
    if es != [] {
      LookupRemove(es[1..], k, x);
    }
  }

  lemma LookupFront<K, V>(e: Entry<K, V>, es: seq<Entry<K, V>>, x: K)
    ensures Lookup([e] + es, x) == if x == e.key then Some(e.value) else Lookup(es, x)
  {
    assert ([e] + es)[1..] == es;
  }

  lemma LookupTouch<K, V>(es: seq<Entry<K, V>>, k: K, x: K)
    ensures Lookup(Touch(es, k), x) == Lookup(es, x)
  {
    LookupRemove(es, k, x);
    if Lookup(es, k).Some? {
      LookupFront(Entry(k, Lookup(es, k).value), Remove(es, k), x);
    }
  }

  lemma {:induction false} LookupPrefix<K, V>(es: seq<Entry<K, V>>, n: nat, x: K)
    requires n <= |es|
    ensures Lookup(es[..n], x).Some? ==> Lookup(es, x) == Lookup(es[..n], x)
  {
    if n > 0 {
      LookupPrefix(es[1..], n - 1, x);
      assert es[..n][1..] == es[1..][..n - 1];
    }
  }

  /** A stored entry is found; others may have been evicted, but never change. */
  lemma LookupStore<K, V>(es: seq<Entry<K, V>>, k: K, v: V, capacity: nat, x: K)
    ensures Lookup(Store(es, k, v, capacity), k) == Some(v)
    ensures x != k && Lookup(Store(es, k, v, capacity), x).Some? ==> Lookup(Store(es, k, v, capacity), x) == Lookup(es, x)
  {
    var all := [Entry(k, v)] + Remove(es, k);
    LookupFront(Entry(k, v), Remove(es, k), x);
    LookupRemove(es, k, x);
    if capacity != 0 && |all| > capacity {
      LookupPrefix(all, capacity, x);
      assert all[..capacity][0] == Entry(k, v);
    }
  }

  /** Among the entries of a list without the key just stored: the one at `k` fits beside it. */
  predicate InFront<K(==), V>(rest: seq<Entry<K, V>>, k: K, capacity: nat) {
    capacity == 0 || exists i :: 0 <= i < |rest| && i + 1 < capacity && rest[i].key == k
  }

  lemma {:induction false} LookupPrefixExactly<K, V>(es: seq<Entry<K, V>>, n: nat, x: K)
    requires n <= |es|
    ensures Lookup(es[..n], x) == if exists i :: 0 <= i < n && es[i].key == x then Lookup(es, x) else None
  {
    LookupMember(es[..n], x);
    LookupPrefix(es, n, x);
  }

  /** Storing evicts exactly the entries that no longer fit. */
  lemma StoreKeepsFront<K, V>(es: seq<Entry<K, V>>, k: K, v: V, capacity: nat, x: K)
    requires x != k
    ensures Lookup(Store(es, k, v, capacity), x) == if InFront(Remove(es, k), x, capacity) then Lookup(es, x) else None
  {
    var rest := Remove(es, k);
    var all := [Entry(k, v)] + rest;
    LookupFront(Entry(k, v), rest, x);
    LookupRemove(es, k, x);
    LookupMember(es, x);
    LookupMember(rest, x);
    if capacity != 0 && |all| > capacity {
      LookupPrefixExactly(all, capacity, x);
      if i: nat :| i < |rest| && i + 1 < capacity && rest[i].key == x {
        assert all[i + 1].key == x;
      } else {
        assert forall j :: 1 <= j < capacity ==> all[j] == rest[j - 1];
      }
    }
  }

  // ---- The order of use ----------------------------------------------------------------------------

  /** When the key was used last, counting from 1; erasing is no use. */
  function LastUse<K(==), V>(uses: seq<Use<K, V>>, k: K): nat {
    if uses == [] then 0
    else if uses[|uses| - 1].key == k && !uses[|uses| - 1].Erase? then |uses|
    else LastUse(uses[..|uses| - 1], k)
  }

  /** What was last stored under the key. */
  function LastStored<K(==), V>(uses: seq<Use<K, V>>, k: K): Option<V> {
    if uses == [] then None
    else if uses[|uses| - 1].Put? && uses[|uses| - 1].key == k then Some(uses[|uses| - 1].value)
    else LastStored(uses[..|uses| - 1], k)
  }

  lemma {:induction false} LastUseBound<K, V>(uses: seq<Use<K, V>>, k: K)
    ensures LastUse(uses, k) <= |uses|
  {
    if uses != [] {
      LastUseBound(uses[..|uses| - 1], k);
    }
  }

  /** Every entry was used later than all that follow it, and has the value last stored. */
  predicate InOrder<K(==), V(==)>(es: seq<Entry<K, V>>, uses: seq<Use<K, V>>) {
    es == [] ||
    (LastUse(uses, es[0].key) > 0 && LastStored(uses, es[0].key) == Some(es[0].value) &&
     UsedBefore(es[1..], uses, LastUse(uses, es[0].key)) && InOrder(es[1..], uses))
  }

  predicate UsedBefore<K(==), V(==)>(es: seq<Entry<K, V>>, uses: seq<Use<K, V>>, n: nat) {
    forall e :: e in es ==> LastUse(uses, e.key) < n
  }

  lemma {:induction false} InOrderRemove<K, V>(es: seq<Entry<K, V>>, uses: seq<Use<K, V>>, k: K)
    requires InOrder(es, uses)
    ensures InOrder(Remove(es, k), uses)
  {
    hide LastUse, LastStored;
    if es != [] {
      var rest := Remove(es[1..], k);
      InOrderRemove(es[1..], uses, k);
      RemoveMembers(es[1..], k);
      if es[0].key != k {
        assert ([es[0]] + rest)[1..] == rest;
      }
    }
  }

  lemma {:induction false} InOrderStored<K, V>(es: seq<Entry<K, V>>, uses: seq<Use<K, V>>, e: Entry<K, V>)
    requires InOrder(es, uses) && e in es
    ensures LastStored(uses, e.key) == Some(e.value)
  {
    hide LastUse, LastStored;
    if e != es[0] {
      assert es == [es[0]] + es[1..];
      InOrderStored(es[1..], uses, e);
    }
  }

  lemma LaterOthers<K, V>(uses: seq<Use<K, V>>, use: Use<K, V>, k: K)
    requires k != use.key || use.Erase?
    ensures LastUse(uses + [use], k) == LastUse(uses, k) && LastStored(uses + [use], k) == LastStored(uses, k)
  {
    assert (uses + [use])[..|uses|] == uses;
  }

  /** Entries of other keys are in order after a use as they were before. */
  lemma {:induction false} InOrderLater<K, V>(es: seq<Entry<K, V>>, uses: seq<Use<K, V>>, use: Use<K, V>)
    requires InOrder(es, uses)
    requires use.Erase? || forall e :: e in es ==> e.key != use.key
    ensures InOrder(es, uses + [use])
  {
    hide LastUse, LastStored;
    if es != [] {
      assert es == [es[0]] + es[1..];
      InOrderLater(es[1..], uses, use);
      forall e | e in es
        ensures LastUse(uses + [use], e.key) == LastUse(uses, e.key) && LastStored(uses + [use], e.key) == LastStored(uses, e.key)
      {
        LaterOthers(uses, use, e.key);
      }
    }
  }

  lemma {:induction false} TrimMembers<T>(es: seq<T>, n: nat)
    requires n <= |es|
    ensures forall e :: e in es[..n] ==> e in es
  {
  }

  lemma {:induction false} InOrderPrefix<K, V>(es: seq<Entry<K, V>>, uses: seq<Use<K, V>>, n: nat)
    requires InOrder(es, uses) && n <= |es|
    ensures InOrder(es[..n], uses)
  {
    hide LastUse, LastStored;
    if n > 0 {
      InOrderPrefix(es[1..], uses, n - 1);
      assert es[..n][1..] == es[1..][..n - 1];
      TrimMembers(es[1..], n - 1);
    }
  }

  lemma UsedNow<K, V>(before: seq<Use<K, V>>, use: Use<K, V>, rest: seq<Entry<K, V>>)
    requires !use.Erase? && forall e :: e in rest ==> e.key != use.key
    ensures LastUse(before + [use], use.key) == |before| + 1 && UsedBefore(rest, before + [use], |before| + 1)
    ensures LastStored(before + [use], use.key) == if use.Put? then Some(use.value) else LastStored(before, use.key)
  {
    assert (before + [use])[..|before|] == before;
    forall e | e in rest
      ensures LastUse(before + [use], e.key) < |before| + 1
    {
      LastUseBound(before, e.key);
    }
  }

  /** The key just used goes to the front. */
  lemma InOrderFront<K, V>(before: seq<Use<K, V>>, use: Use<K, V>, rest: seq<Entry<K, V>>, v: V)
    requires InOrder(rest, before) && !use.Erase? && forall e :: e in rest ==> e.key != use.key
    requires if use.Put? then v == use.value else LastStored(before, use.key) == Some(v)
    ensures InOrder([Entry(use.key, v)] + rest, before + [use])
  {
    InOrderLater(rest, before, use);
    UsedNow(before, use, rest);
    hide LastUse, LastStored, UsedBefore;
    assert ([Entry(use.key, v)] + rest)[1..] == rest;
  }

  lemma InOrderNext<K, V>(es: seq<Entry<K, V>>, before: seq<Use<K, V>>, use: Use<K, V>, capacity: nat)
    requires InOrder(es, before)
    ensures InOrder(Apply(es, use, capacity), before + [use])
  {
    hide LastUse, LastStored, InOrder, Remove, Lookup;
    var k := use.key;
    var rest := Remove(es, k);
    InOrderRemove(es, before, k);
    RemoveMembers(es, k);
    LookupMember(es, k);
    match use
    case Erase(_) => InOrderLater(rest, before, use);
    case Get(_) =>
      if Lookup(es, k).Some? {
        InOrderStored(es, before, Entry(k, Lookup(es, k).value));
        InOrderFront(before, use, rest, Lookup(es, k).value);
      } else {
        InOrderLater(es, before, use);
      }
    case Put(_, v) =>
      InOrderFront(before, use, rest, v);
      var all := [Entry(k, v)] + rest;
      InOrderPrefix(all, before + [use], if capacity != 0 && |all| > capacity then capacity else |all|);
      assert all[..|all|] == all;
  }

  lemma {:induction false} AfterInOrder<K, V>(uses: seq<Use<K, V>>, capacity: nat)
    ensures InOrder(After(uses, capacity), uses)
  {
    if uses != [] {
      var n := |uses| - 1;
      AfterInOrder(uses[..n], capacity);
      InOrderNext(After(uses[..n], capacity), uses[..n], uses[n], capacity);
      assert uses[..n] + [uses[n]] == uses;
      hide InOrder;
    }
  }

  lemma {:induction false} InOrderPair<K, V>(es: seq<Entry<K, V>>, uses: seq<Use<K, V>>, i: nat, j: nat)
    requires InOrder(es, uses) && i < j < |es|
    ensures LastUse(uses, es[i].key) > LastUse(uses, es[j].key)
  {
    hide LastUse, LastStored;
    if i > 0 {
      InOrderPair(es[1..], uses, i - 1, j - 1);
    } else {
      assert es[1..][j - 1] == es[j];
    }
  }

  /** In every reachable cache the entries stand in the order in which their keys were used last, the most
      recent first, each with the value last stored under its key. */
  lemma OrderedByUse<K, V>(uses: seq<Use<K, V>>, capacity: nat)
    ensures var es := After(uses, capacity);
            (forall i, j :: 0 <= i < j < |es| ==> LastUse(uses, es[i].key) > LastUse(uses, es[j].key)) &&
            (forall i :: 0 <= i < |es| ==> LastStored(uses, es[i].key) == Some(es[i].value))
  {
    hide LastUse, LastStored, InOrder, After;
    var es := After(uses, capacity);
    AfterInOrder(uses, capacity);
    forall i, j | 0 <= i < j < |es|
      ensures LastUse(uses, es[i].key) > LastUse(uses, es[j].key)
    {
      InOrderPair(es, uses, i, j);
    }
    forall i | 0 <= i < |es|
      ensures LastStored(uses, es[i].key) == Some(es[i].value)
    {
      InOrderStored(es, uses, es[i]);
    }
  }

  // ---- Inclusion ---------------------------------------------------------------------------------

  /** `a` is `b` with some entries left out. */
  predicate Subsequence<T(==)>(a: seq<T>, b: seq<T>) {
    a == [] || (b != [] && ((a[0] == b[0] && Subsequence(a[1..], b[1..])) || Subsequence(a, b[1..])))
  }

  lemma {:induction false} SubsequenceMembers<T>(a: seq<T>, b: seq<T>)
    requires Subsequence(a, b)
    ensures |a| <= |b| && forall x :: x in a ==> x in b
    decreases |b|
  {
    if a != [] {
      assert a == [a[0]] + a[1..] && b == [b[0]] + b[1..];
      if a[0] == b[0] && Subsequence(a[1..], b[1..]) {
        SubsequenceMembers(a[1..], b[1..]);
      } else {
        SubsequenceMembers(a, b[1..]);
      }
    }
  }

  lemma {:induction false} SubsequenceSkips<T>(a: seq<T>, b: seq<T>)
    requires a != [] && Subsequence(a, b)
    ensures Subsequence(a[1..], b)
    decreases |b|
  {
    if a[0] == b[0] && Subsequence(a[1..], b[1..]) {
    } else {
      SubsequenceSkips(a, b[1..]);
    }
  }

  lemma SubsequenceFront<T>(e: T, a: seq<T>, b: seq<T>)
    requires Subsequence(a, b)
    ensures Subsequence([e] + a, [e] + b) && Subsequence(a, [e] + b)
  {
    assert ([e] + a)[1..] == a && ([e] + b)[1..] == b;
  }

  lemma {:induction false} SubsequenceRemove<K, V>(a: seq<Entry<K, V>>, b: seq<Entry<K, V>>, k: K)
    requires Subsequence(a, b)
    ensures Subsequence(Remove(a, k), Remove(b, k))
    decreases |b|
  {
    if a != [] {
      if a[0] == b[0] && Subsequence(a[1..], b[1..]) {
        SubsequenceRemove(a[1..], b[1..], k);
        SubsequenceFront(b[0], Remove(a[1..], k), Remove(b[1..], k));
      } else {
        SubsequenceRemove(a, b[1..], k);
        SubsequenceFront(b[0], Remove(a, k), Remove(b[1..], k));
      }
    }
  }

  /** Evicting the last of the longer list is covered by evicting the last of the shorter one. */
  lemma {:induction false} SubsequenceLast<T>(a: seq<T>, b: seq<T>)
    requires a != [] && Subsequence(a, b)
    ensures b != [] && Subsequence(a[..|a| - 1], b[..|b| - 1]) && Subsequence(a[..|a| - 1], b)
    decreases |b|
  {
    var a', b' := a[..|a| - 1], b[..|b| - 1];
    if a[0] == b[0] && Subsequence(a[1..], b[1..]) {
      if |a| > 1 {
        SubsequenceLast(a[1..], b[1..]);
        assert a'[1..] == a[1..][..|a[1..]| - 1] && b'[1..] == b[1..][..|b[1..]| - 1];
      }
    } else {
      SubsequenceLast(a, b[1..]);
      assert b'[1..] == b[1..][..|b[1..]| - 1];
    }
  }

  lemma {:induction false} SubsequenceLookup<K, V>(a: seq<Entry<K, V>>, b: seq<Entry<K, V>>, k: K)
    requires Subsequence(a, b) && Distinct(b) && Lookup(a, k).Some?
    ensures Lookup(b, k) == Lookup(a, k)
  {
    SubsequenceMembers(a, b);
    LookupMember(a, k);
    LookupMember(b, k);
    var i :| 0 <= i < |b| && b[i] == Entry(k, Lookup(a, k).value);
    var j :| 0 <= j < |b| && b[j] == Entry(k, Lookup(b, k).value);
    assert i == j;
  }

  /** The order of capacities, 0 being the largest. */
  predicate NoLarger(c: nat, d: nat) {
    d == 0 || 0 < c <= d
  }

  /** `small` could be the cache of capacity `c` beside the cache `large` of capacity `d`. */
  ghost predicate Included<K, V>(small: seq<Entry<K, V>>, large: seq<Entry<K, V>>, c: nat, d: nat) {
    Subsequence(small, large) &&
    (d != 0 ==> |large| - |small| <= d - c) &&
    (c == 0 ==> |large| == |small|)
  }

  /** Inserting in both and evicting what is over capacity keeps the inclusion. */
  lemma TrimIncluded<K, V>(a: seq<Entry<K, V>>, b: seq<Entry<K, V>>, c: nat, d: nat)
    requires NoLarger(c, d) && Subsequence(a, b)
    requires c != 0 ==> |a| <= c + 1
    requires d != 0 ==> |b| <= d + 1 && |b| - |a| <= d - c
    requires c == 0 ==> |a| == |b|
    ensures Included(Trim(a, c), Trim(b, d), c, d)
  {
    if c != 0 && |a| > c {
      SubsequenceLast(a, b);
    }
  }

  lemma UseIncluded<K, V>(small: seq<Entry<K, V>>, large: seq<Entry<K, V>>, use: Use<K, V>, c: nat, d: nat)
    requires NoLarger(c, d) && Included(small, large, c, d)
    requires Distinct(small) && Within(small, c) && Distinct(large) && Within(large, d)
    ensures Included(Apply(small, use, c), Apply(large, use, d), c, d)
  {
    var k := use.key;
    var a, b := Remove(small, k), Remove(large, k);
    SubsequenceRemove(small, large, k);
    RemoveKeeps(small, k);
    RemoveKeeps(large, k);
    if Lookup(small, k).Some? {
      SubsequenceLookup(small, large, k);
    }
    if c == 0 {
      SameLength(small, large);
    }
    match use
    case Erase(_) =>
    case Get(_) =>
      if Lookup(large, k).Some? {
        SubsequenceFront(Entry(k, Lookup(large, k).value), a, b);
      }
    case Put(_, v) =>
      SubsequenceFront(Entry(k, v), a, b);
      TrimIncluded([Entry(k, v)] + a, [Entry(k, v)] + b, c, d);
  }

  lemma {:induction false} SameLength<T>(a: seq<T>, b: seq<T>)
    requires Subsequence(a, b) && |a| == |b|
    ensures a == b
    decreases |b|
  {
    if a != [] {
      if a[0] == b[0] && Subsequence(a[1..], b[1..]) {
        SameLength(a[1..], b[1..]);
        assert a == [a[0]] + a[1..] && b == [b[0]] + b[1..];
      } else {
        SubsequenceMembers(a, b[1..]);
      }
    }
  }

  /** After any uses, a cache of smaller capacity holds a sublist of what a larger one holds, lacks at
      most the difference of the capacities, and never hits where the larger one misses. */
  lemma {:induction false} Inclusion<K, V>(uses: seq<Use<K, V>>, c: nat, d: nat, k: K)
    requires NoLarger(c, d)
    ensures Included(After(uses, c), After(uses, d), c, d)
    ensures Lookup(After(uses, c), k).Some? ==> Lookup(After(uses, d), k) == Lookup(After(uses, c), k)
  {
    if uses != [] {
      var before := uses[..|uses| - 1];
      Inclusion(before, c, d, k);
      AlwaysWithin(before, c);
      AlwaysWithin(before, d);
      UseIncluded(After(before, c), After(before, d), uses[|uses| - 1], c, d);
    }
    AlwaysWithin(uses, d);
    if Lookup(After(uses, c), k).Some? {
      SubsequenceLookup(After(uses, c), After(uses, d), k);
    }
  }

  // ---- The list and its index --------------------------------------------------------------------

  /** A list node; the index points at nodes, so moving a node in the list keeps it valid. */
  class Node<K(==), V> {
    const key: K
    var value: V

    constructor (key: K, value: V)
      ensures this.key == key && this.value == value
    {
      this.key, this.value := key, value;
    }
  }

  ghost function EntriesOf<K, V>(nodes: seq<Node<K, V>>): (r: seq<Entry<K, V>>)
    reads nodes
    ensures |r| == |nodes|
    ensures forall i :: 0 <= i < |nodes| ==> r[i] == Entry(nodes[i].key, nodes[i].value)
  {
    seq(|nodes|, i requires 0 <= i < |nodes| reads nodes => Entry(nodes[i].key, nodes[i].value))
  }

  /** The list without one of its nodes (`splice` and `erase`). */
  function Unlink<K(==), V>(nodes: seq<Node<K, V>>, i: nat): seq<Node<K, V>>
    requires i < |nodes|
  {
    nodes[..i] + nodes[i + 1..]
  }

  /** The index holds exactly the nodes of the list, by key. */
  ghost predicate Linked<K, V>(order: seq<Node<K, V>>, index: map<K, Node<K, V>>) {
    (forall i, j :: 0 <= i < j < |order| ==> order[i].key != order[j].key) &&
    (forall i :: 0 <= i < |order| ==> order[i].key in index && index[order[i].key] == order[i]) &&
    (forall k :: k in index ==> index[k] in order && index[k].key == k)
  }

  /** Where the j-th node stood before node `i` was moved to the front. */
  function MovedFrom(i: nat, j: nat): nat {
    if j == 0 then i else if j <= i then j - 1 else j
  }

  lemma MovedNodes<K, V>(order: seq<Node<K, V>>, i: nat, j: nat)
    requires i < |order| && j < |order|
    ensures MovedFrom(i, j) < |order| && ([order[i]] + Unlink(order, i))[j] == order[MovedFrom(i, j)]
  {
  }

  lemma LinkedMove<K, V>(order: seq<Node<K, V>>, index: map<K, Node<K, V>>, i: nat)
    requires Linked(order, index) && i < |order|
    ensures Linked([order[i]] + Unlink(order, i), index)
  {
    var moved := [order[i]] + Unlink(order, i);
    assert |moved| == |order|;
    hide Unlink;
    forall a | 0 <= a < |moved|
      ensures moved[a].key in index && index[moved[a].key] == moved[a]
    {
      MovedNodes(order, i, a);
    }
    forall a, b | 0 <= a < b < |moved|
      ensures moved[a].key != moved[b].key
    {
      MovedNodes(order, i, a);
      MovedNodes(order, i, b);
    }
    forall k | k in index
      ensures index[k] in moved
    {
      var j :| 0 <= j < |order| && order[j] == index[k];
      var a := if j == i then 0 else if j < i then j + 1 else j;
      MovedNodes(order, i, a);
      assert moved[a] == index[k];
    }
  }

  lemma LinkedErase<K, V>(order: seq<Node<K, V>>, index: map<K, Node<K, V>>, i: nat)
    requires Linked(order, index) && i < |order|
    ensures Linked(Unlink(order, i), index - {order[i].key})
  {
    var rest := Unlink(order, i);
    forall k | k in index && k != order[i].key
      ensures index[k] in rest
    {
      var j :| 0 <= j < |order| && order[j] == index[k];
      assert rest[if j < i then j else j - 1] == index[k];
    }
  }

  lemma LinkedInsert<K, V>(order: seq<Node<K, V>>, index: map<K, Node<K, V>>, n: Node<K, V>)
    requires Linked(order, index) && n.key !in index
    ensures Linked([n] + order, index[n.key := n])
  {
    var more := [n] + order;
    assert more[0] == n;
    forall k | k in index
      ensures index[k] in more
    {
      var j :| 0 <= j < |order| && order[j] == index[k];
      assert more[j + 1] == index[k];
    }
  }

  /** List and index have the same size. */
  lemma {:induction false} LinkedSize<K, V>(order: seq<Node<K, V>>, index: map<K, Node<K, V>>)
    requires Linked(order, index)
    ensures |index| == |order|
  {
    if order == [] {
      assert index == map[];
    } else {
      var n := |order| - 1;
      LinkedErase(order, index, n);
      assert Unlink(order, n) == order[..n];
      var k := order[n].key;
      LinkedSize(order[..n], index - {k});
      assert index == (index - {k})[k := index[k]];
    }
  }

  lemma EntriesFront<K, V>(n: Node<K, V>, nodes: seq<Node<K, V>>)
    ensures EntriesOf([n] + nodes) == [Entry(n.key, n.value)] + EntriesOf(nodes)
  {
  }

  lemma EntriesUnlink<K, V>(nodes: seq<Node<K, V>>, i: nat)
    requires i < |nodes|
    ensures EntriesOf(Unlink(nodes, i)) == EntriesOf(nodes)[..i] + EntriesOf(nodes)[i + 1..]
  {
  }

  lemma EntriesDistinct<K, V>(order: seq<Node<K, V>>, index: map<K, Node<K, V>>)
    requires Linked(order, index)
    ensures Distinct(EntriesOf(order))
  {
  }

  /** Taking a node out of the list takes its entry out of the contents. */
  lemma UnlinkRemoves<K, V>(order: seq<Node<K, V>>, index: map<K, Node<K, V>>, i: nat)
    requires Linked(order, index) && i < |order|
    ensures EntriesOf(Unlink(order, i)) == Remove(EntriesOf(order), order[i].key)
    ensures Lookup(EntriesOf(order), order[i].key) == Some(order[i].value)
  {
    EntriesDistinct(order, index);
    hide Linked;
    EntriesUnlink(order, i);
    RemoveAt(EntriesOf(order), i);
  }

  lemma LookupIndexed<K, V>(order: seq<Node<K, V>>, index: map<K, Node<K, V>>, k: K)
    requires Linked(order, index)
    ensures k in index <==> Lookup(EntriesOf(order), k).Some?
    ensures k !in index ==> Remove(EntriesOf(order), k) == EntriesOf(order)
    ensures k in index ==> index[k] in order && index[k].key == k
  {
    var es := EntriesOf(order);
    LookupMember(es, k);
    EntriesDistinct(order, index);
    RemoveCounts(es, k);
    if k in index {
      var i :| 0 <= i < |order| && order[i] == index[k];
      assert es[i].key == k;
    }
  }

  lemma SameNodes<K, V>(order: seq<Node<K, V>>, i: nat)
    requires i < |order|
    ensures forall n :: n in Unlink(order, i) ==> n in order
  {
  }

  /** Moving a node to the front is what a hit does to the contents. */
  lemma FrontMove<K, V>(order: seq<Node<K, V>>, index: map<K, Node<K, V>>, i: nat)
    requires Linked(order, index) && i < |order|
    ensures var moved := [order[i]] + Unlink(order, i);
            Linked(moved, index) && (forall n :: n in moved ==> n in order) &&
            EntriesOf(moved) == Touch(EntriesOf(order), order[i].key)
    ensures Lookup(EntriesOf(order), order[i].key) == Some(order[i].value)
  {
    hide Linked, Lookup, Remove, EntriesOf, Unlink;
    SameNodes(order, i);
    LinkedMove(order, index, i);
    UnlinkRemoves(order, index, i);
    EntriesFront(order[i], Unlink(order, i));
  }

  lemma OnlyOnce<K, V>(order: seq<Node<K, V>>, index: map<K, Node<K, V>>, i: nat)
    requires Linked(order, index) && i < |order|
    ensures order[i] !in Unlink(order, i)
  {
  }

  lemma DropLast<K, V>(order: seq<Node<K, V>>, index: map<K, Node<K, V>>)
    requires Linked(order, index) && order != []
    ensures Linked(order[..|order| - 1], index - {order[|order| - 1].key})
  {
    LinkedErase(order, index, |order| - 1);
    assert Unlink(order, |order| - 1) == order[..|order| - 1];
  }

  lemma EntriesTrim<K, V>(nodes: seq<Node<K, V>>, capacity: nat)
    ensures EntriesOf(Trim(nodes, capacity)) == Trim(EntriesOf(nodes), capacity)
  {
  }

  lemma {:induction false} RemoveAt<K, V>(es: seq<Entry<K, V>>, i: nat)
    requires Distinct(es) && i < |es|
    ensures Remove(es, es[i].key) == es[..i] + es[i + 1..]
    ensures Lookup(es, es[i].key) == Some(es[i].value)
  {
    if i == 0 {
      assert forall j :: 0 <= j < |es[1..]| ==> es[1..][j].key != es[0].key;
      RemoveAbsent(es[1..], es[0].key);
    } else {
      assert es[0].key != es[i].key;
      assert es[1..][i - 1] == es[i];
      RemoveAt(es[1..], i - 1);
      assert [es[0]] + (es[1..][..i - 1] + es[1..][i..]) == es[..i] + es[i + 1..];
    }
  }

  class LruCache<K(==), V> {
    const capacity: nat
    var order: seq<Node<K, V>>
    var index: map<K, Node<K, V>>

    ghost predicate Valid()
      reads this
    {
      Linked(order, index)
    }

    ghost function Contents(): seq<Entry<K, V>>
      reads this, order
    {
      EntriesOf(order)
    }

    constructor (capacity: nat)
      ensures Valid() && this.capacity == capacity && Contents() == [] && order == []
    {
      this.capacity := capacity;
      order, index := [], map[];
    }

    /** Where the iterator of a key points. */
    method Position(k: K) returns (i: nat)
      requires Valid() && k in index
      ensures i < |order| && order[i] == index[k] && order[i].key == k
    {
      LookupIndexed(order, index, k);
      hide Linked;
      i := 0;
      while order[i] != index[k]
        invariant i < |order| && index[k] in order[i..]
        decreases |order| - i
      {
        i := i + 1;
      }
    }

    /** Move to the front what is asked for. */
    method Get(k: K) returns (value: Option<V>)
      requires Valid()
      modifies this`order
      ensures Valid() && (forall n :: n in order ==> n in old(order))
      ensures value == Lookup(old(Contents()), k) && Contents() == Touch(old(Contents()), k)
    {
      LookupIndexed(order, index, k);
      hide Linked, Lookup, Remove, EntriesOf, Unlink;
      if k !in index {
        return None;
      }
      hide Touch;
      var i := Position(k);
      FrontMove(order, index, i);
      order := [order[i]] + Unlink(order, i);
      value := Some(index[k].value);
    }

    method Contains(k: K) returns (found: bool)
      requires Valid()
      ensures found == Lookup(Contents(), k).Some?
    {
      LookupIndexed(order, index, k);
      found := k in index;
    }

    method Size() returns (n: nat)
      requires Valid()
      ensures n == |Contents()|
    {
      LinkedSize(order, index);
      n := |index|;
    }

    method Erase(k: K)
      requires Valid()
      modifies this`order, this`index
      ensures Valid() && (forall n :: n in order ==> n in old(order))
      ensures Contents() == Remove(old(Contents()), k)
    {
      LookupIndexed(order, index, k);
      hide Linked, Lookup, Remove, EntriesOf, Unlink;
      if k !in index {
        return;
      }
      var i := Position(k);
      SameNodes(order, i);
      LinkedErase(order, index, i);
      UnlinkRemoves(order, index, i);
      order := Unlink(order, i);
      index := index - {k};
    }

    /** Drop the least recently used entries until the capacity is respected. */
    method EvictToCapacity()
      requires Valid()
      modifies this`order, this`index
      ensures Valid() && order == Trim(old(order), capacity)
      ensures Contents() == Trim(old(Contents()), capacity)
    {
      hide Linked, EntriesOf;
      ghost var was := order;
      EntriesTrim(was, capacity);
      LinkedSize(order, index);
      while capacity != 0 && |index| > capacity
        invariant Valid() && |index| == |order|
        invariant order == was || (capacity != 0 && capacity <= |order| < |was| && order == was[..|order|])
        decreases |order|
      {
        var victim := order[|order| - 1];
        DropLast(order, index);
        index := index - {victim.key};
        order := order[..|order| - 1];
        LinkedSize(order, index);
      }
    }

    method Replace(k: K, v: V)
      requires Valid() && k in index
      modifies this`order, order
      ensures Valid() && Contents() == [Entry(k, v)] + Remove(old(Contents()), k)
      ensures forall n :: n in order ==> n in old(order)
    {
      hide Linked, Lookup, Remove, EntriesOf, Unlink;
      var i := Position(k);
      SameNodes(order, i);
      var n, rest := order[i], Unlink(order, i);
      OnlyOnce(order, index, i);
      LinkedMove(order, index, i);
      UnlinkRemoves(order, index, i);
      n.value := v;
      EntriesFront(n, rest);
      order := [n] + rest;
    }

    method Insert(k: K, v: V)
      requires Valid() && k !in index
      modifies this`order, this`index
      ensures Valid() && Contents() == [Entry(k, v)] + Remove(old(Contents()), k)
      ensures forall n :: n in order ==> n in old(order) || fresh(n)
    {
      LookupIndexed(order, index, k);
      hide Linked, Lookup, Remove, EntriesOf;
      var n := new Node(k, v);
      LinkedInsert(order, index, n);
      EntriesFront(n, order);
      order := [n] + order;
      index := index[k := n];
    }

    /** Insert or replace, as most recently used, then evict. */
    method Put(k: K, v: V)
      requires Valid()
      modifies this, order
      ensures Valid() && Contents() == Store(old(Contents()), k, v, capacity)
      ensures forall n :: n in order ==> n in old(order) || fresh(n)
    {
      hide Linked, Remove, EntriesOf;
      if k in index {
        Replace(k, v);
      } else {
        Insert(k, v);
      }
      EvictToCapacity();
    }
  }
}
