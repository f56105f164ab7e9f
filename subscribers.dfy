/**
 * The subscription registry (manager/subscribers.js): a nested index
 * domain → name → insertion-ordered set of sockets, where the name `*`
 * subscribes to every name of its domain.
 *
 * The index is a value of type Index; the functions below say what each
 * operation of SubscribersManager leaves in it, and the class at the end
 * performs the operations in place, step by step, as the source does.
 */
module Subscribers {
  import opened Common

  /** The wildcard name. */
  const Wildcard: Value := Text("*")

  type Index<S> = map<Value, map<Value, seq<S>>>

  /** The registry's invariant: no empty domain map, no empty bucket, no socket twice in a bucket. */
  ghost predicate Pruned<S>(index: Index<S>) {
    forall d :: d in index ==> PrunedDomain(index[d])
  }

  /** A domain map of the registry: not empty, and every set in it is non-empty. */
  ghost predicate PrunedDomain<S>(dm: map<Value, seq<S>>) {
    dm != map[] && forall n :: n in dm ==> PrunedSet(dm[n])
  }

  ghost predicate PrunedSet<S>(b: seq<S>) {
    b != [] && NoDup(b)
  }

  /** The set stored under (domain, name), empty when there is none. */
  function Bucket<S>(index: Index<S>, domain: Value, name: Value): seq<S> {
    if domain in index && name in index[domain] then index[domain][name] else []
  }

  /** The elements of `s` that are not in `t`, in the order of `s`. */
  function Exclude<S(==)>(s: seq<S>, t: seq<S>): (r: seq<S>)
    ensures |r| <= |s|
  {
    if s == [] then []
    else
      assert s == [s[0]] + s[1..];
      if s[0] in t then Exclude(s[1..], t) else [s[0]] + Exclude(s[1..], t)
  }

  /**
   * What `get(domain, name)` returns: the exact-name subscribers followed
   * by the wildcard subscribers, each socket once.
   */
  function Subscribed<S(==)>(index: Index<S>, domain: Value, name: Value): (r: seq<S>)
    ensures Bucket(index, domain, name) == [] && Bucket(index, domain, Wildcard) == [] ==> r == []
  {
    AppendNew([], Bucket(index, domain, name) + Bucket(index, domain, Wildcard))
  }

  /**
   * `get` returns the exact-name subscribers in insertion order, then the
   * wildcard subscribers that are not among them, each socket exactly once,
   * and a socket is returned exactly when it is in one of the two sets.
   */
  lemma {:induction false} SubscribedShape<S>(index: Index<S>, domain: Value, name: Value)
    requires Pruned(index)
    ensures NoDup(Subscribed(index, domain, name))
    ensures Subscribed(index, domain, name) ==
      Bucket(index, domain, name) + Exclude(Bucket(index, domain, Wildcard), Bucket(index, domain, name))
  {
    var named, wildcard := Bucket(index, domain, name), Bucket(index, domain, Wildcard);
    BucketNoDup(index, domain, name);
    BucketNoDup(index, domain, Wildcard);
    AppendNewConcat([], named, wildcard);
    AppendNewNoDup([], named + wildcard);
    assert [] + named == named;
    AppendNewDistinct([], named);
    assert AppendNew([], named) == named;
    AppendNewExclude(named, wildcard);
  }

  /** Every bucket of a pruned registry is duplicate-free. */
  lemma BucketNoDup<S>(index: Index<S>, domain: Value, name: Value)
    requires Pruned(index)
    ensures NoDup(Bucket(index, domain, name))
  {
    if domain in index && name in index[domain] {
      assert PrunedDomain(index[domain]);
    }
  }

  lemma SubscribedMembers<S>(index: Index<S>, domain: Value, name: Value, socket: S)
    ensures socket in Subscribed(index, domain, name) <==>
      socket in Bucket(index, domain, name) || socket in Bucket(index, domain, Wildcard)
  {
    AppendNewMembers([], Bucket(index, domain, name) + Bucket(index, domain, Wildcard), socket);
  }

  /** Adding a duplicate-free iterable to a set appends the new elements in order. */
  lemma {:induction false} AppendNewExclude<S>(acc: seq<S>, s: seq<S>)
    requires NoDup(s)
    ensures AppendNew(acc, s) == acc + Exclude(s, acc)
    decreases |s|
  {
    if s == [] {
      assert acc + [] == acc;
    } else {
      var y, rest := s[0], s[1..];
      NoDupTail(s);
      if y in acc {
        assert AppendNew(acc, s) == AppendNew(acc, rest);
        assert Exclude(s, acc) == Exclude(rest, acc);
        AppendNewExclude(acc, rest);
      } else {
        assert AppendNew(acc, s) == AppendNew(acc + [y], rest);
        assert Exclude(s, acc) == [y] + Exclude(rest, acc);
        AppendNewExclude(acc + [y], rest);
        ExcludeIgnores(rest, acc, y);
        assert acc + [y] + Exclude(rest, acc) == acc + ([y] + Exclude(rest, acc));
      }
    }
  }

  lemma NoDupTail<S>(s: seq<S>)
    requires s != [] && NoDup(s)
    ensures NoDup(s[1..]) && s[0] !in s[1..]
  {
    forall i, j | 0 <= i < j < |s[1..]| ensures s[1..][i] != s[1..][j] {
      assert s[1..][i] == s[i + 1] && s[1..][j] == s[j + 1];
    }
    forall k | 0 <= k < |s[1..]| ensures s[1..][k] != s[0] {
      assert s[1..][k] == s[k + 1];
    }
  }

  /** Excluding an element that does not occur changes nothing. */
  lemma {:induction false} ExcludeIgnores<S>(s: seq<S>, t: seq<S>, y: S)
    requires y !in s
    ensures Exclude(s, t + [y]) == Exclude(s, t)
  {
    if s != [] {
      assert (s[0] in t + [y]) == (s[0] in t);
      ExcludeIgnores(s[1..], t, y);
    }
  }

  // ---------------------------------------------------------------------
  // The effect of each operation on the index.

  /** `add(socket, domain, name)`: create the missing maps, then add to the set. */
  function Added<S(==)>(index: Index<S>, socket: S, domain: Value, name: Value): Index<S> {
    var dm := if domain in index then index[domain] else map[];
    var b := Bucket(index, domain, name);
    index[domain := dm[name := if socket in b then b else b + [socket]]]
  }

  /** A domain map with `socket` removed from every set and the emptied sets dropped. */
  function PruneDomain<S(==)>(dm: map<Value, seq<S>>, socket: S): map<Value, seq<S>> {
    map n | n in dm && Remove(dm[n], socket) != [] :: Remove(dm[n], socket)
  }

  /** `deleteBySocket(socket)`. */
  function WithoutSocket<S(==)>(index: Index<S>, socket: S): Index<S> {
    map d | d in index && PruneDomain(index[d], socket) != map[] :: PruneDomain(index[d], socket)
  }

  /** `deleteBySocketAndDomainAndName(socket, domain, name)`, including its temporary empty maps. */
  function WithoutSubscription<S(==)>(index: Index<S>, socket: S, domain: Value, name: Value): Index<S> {
    var dm := if domain in index then index[domain] else map[];
    var b := Remove(Bucket(index, domain, name), socket);
    if b != [] then index[domain := dm[name := b]]
    else if dm - {name} == map[] then index - {domain}
    else index[domain := dm - {name}]
  }

  // ---------------------------------------------------------------------
  // Properties of the operations.

  lemma AddedBuckets<S>(index: Index<S>, socket: S, domain: Value, name: Value, d: Value, n: Value)
    ensures Bucket(Added(index, socket, domain, name), d, n) ==
      if d == domain && n == name then
        (if socket in Bucket(index, d, n) then Bucket(index, d, n) else Bucket(index, d, n) + [socket])
      else Bucket(index, d, n)
  {
  }

  lemma {:induction false} AddedPruned<S>(index: Index<S>, socket: S, domain: Value, name: Value)
    requires Pruned(index)
    ensures Pruned(Added(index, socket, domain, name))
  {
    var b := Bucket(index, domain, name);
    var b' := if socket in b then b else b + [socket];
    assert NoDup(b') by {
      if socket !in b {
        forall i, j | 0 <= i < j < |b'| ensures b'[i] != b'[j] {
          assert b'[i] == b[i];
          if j < |b| { assert b'[j] == b[j]; }
        }
      }
    }
    var after := Added(index, socket, domain, name);
    forall d | d in after ensures PrunedDomain(after[d]) {
      if d == domain {
        assert name in after[d];
        forall n | n in after[d] ensures PrunedSet(after[d][n]) {
          if n != name { assert after[d][n] == index[d][n]; }
        }
      } else {
        assert after[d] == index[d];
      }
    }
  }

  /** Adding the same socket to the same (domain, name) twice is adding it once. */
  lemma {:induction false} AddIdempotent<S>(index: Index<S>, socket: S, domain: Value, name: Value)
    ensures Added(Added(index, socket, domain, name), socket, domain, name) == Added(index, socket, domain, name)
    ensures Subscribed(Added(Added(index, socket, domain, name), socket, domain, name), domain, name)
         == Subscribed(Added(index, socket, domain, name), domain, name)
  {
    var once := Added(index, socket, domain, name);
    AddedBuckets(index, socket, domain, name, domain, name);
    assert socket in Bucket(once, domain, name);
    assert once[domain][name := once[domain][name]] == once[domain];
    assert once[domain := once[domain]] == once;
  }

  /** After `add`, the socket is among the subscribers of (domain, name), after those already there. */
  lemma {:induction false} AddedSubscribed<S>(index: Index<S>, socket: S, domain: Value, name: Value)
    requires Pruned(index)
    ensures |Bucket(index, domain, name)| <= |Subscribed(Added(index, socket, domain, name), domain, name)|
    ensures Subscribed(Added(index, socket, domain, name), domain, name)[..|Bucket(index, domain, name)|]
         == Bucket(index, domain, name)
    ensures socket in Subscribed(Added(index, socket, domain, name), domain, name)
  {
    var after := Added(index, socket, domain, name);
    AddedPruned(index, socket, domain, name);
    AddedBuckets(index, socket, domain, name, domain, name);
    SubscribedShape(after, domain, name);
    SubscribedMembers(after, domain, name, socket);
    var b := Bucket(index, domain, name);
    var b' := Bucket(after, domain, name);
    assert b'[..|b|] == b;
    assert socket in b';
    var r := Subscribed(after, domain, name);
    assert r[..|b'|] == b';
    assert r[..|b|] == r[..|b'|][..|b|];
  }

  lemma WithoutSocketBuckets<S>(index: Index<S>, socket: S, d: Value, n: Value)
    ensures Bucket(WithoutSocket(index, socket), d, n) == Remove(Bucket(index, d, n), socket)
  {
    var after := WithoutSocket(index, socket);
    if d in index && n in index[d] && Remove(index[d][n], socket) != [] {
      assert n in PruneDomain(index[d], socket);
      assert d in after && after[d] == PruneDomain(index[d], socket);
    } else if d in after && n in after[d] {
      assert false;
    } else {
      assert Remove([], socket) == [];
    }
  }

  lemma {:induction false} WithoutSocketPruned<S>(index: Index<S>, socket: S)
    requires Pruned(index)
    ensures Pruned(WithoutSocket(index, socket))
  {
    var after := WithoutSocket(index, socket);
    forall d | d in after ensures PrunedDomain(after[d]) {
      forall n | n in after[d] ensures PrunedSet(after[d][n]) {
        assert PrunedSet(index[d][n]);
        RemoveNoDup(index[d][n], socket);
      }
    }
  }

  /**
   * After `deleteBySocket(socket)`, every `get` returns what it returned
   * before with `socket` taken out, and every other socket in the same order.
   */
  lemma {:induction false} WithoutSocketSubscribed<S>(index: Index<S>, socket: S, d: Value, n: Value)
    ensures Subscribed(WithoutSocket(index, socket), d, n) == Remove(Subscribed(index, d, n), socket)
    ensures socket !in Subscribed(WithoutSocket(index, socket), d, n)
  {
    var named, wildcard := Bucket(index, d, n), Bucket(index, d, Wildcard);
    WithoutSocketBuckets(index, socket, d, n);
    WithoutSocketBuckets(index, socket, d, Wildcard);
    RemoveAppend(named, wildcard, socket);
    RemoveAppendNew([], named + wildcard, socket);
    assert Remove([], socket) == [];
    assert multiset(Remove(Subscribed(index, d, n), socket))[socket] == 0;
  }

  /** Deleting a socket that is in no bucket leaves the index as it is. */
  lemma {:induction false} WithoutSocketAbsent<S>(index: Index<S>, socket: S)
    requires Pruned(index)
    requires forall d, n :: d in index && n in index[d] ==> socket !in index[d][n]
    ensures WithoutSocket(index, socket) == index
  {
    forall d | d in index ensures PruneDomain(index[d], socket) == index[d] {
    }
  }

  /** `deleteBySocketAndDomainAndName` changes the bucket (domain, name) and no other. */
  lemma WithoutSubscriptionBuckets<S>(index: Index<S>, socket: S, domain: Value, name: Value, d: Value, n: Value)
    ensures Bucket(WithoutSubscription(index, socket, domain, name), d, n) ==
      if d == domain && n == name then Remove(Bucket(index, d, n), socket) else Bucket(index, d, n)
  {
    var dm := if domain in index then index[domain] else map[];
    var b := Remove(Bucket(index, domain, name), socket);
    var after := WithoutSubscription(index, socket, domain, name);
    if b != [] {
      assert after == index[domain := dm[name := b]];
    } else if dm - {name} == map[] {
      assert after == index - {domain};
      assert n in dm && n != name ==> n in dm - {name};
    } else {
      assert after == index[domain := dm - {name}];
    }
  }

  /** Storing a non-empty, duplicate-free set under (domain, name) keeps the registry invariant. */
  lemma PrunedStore<S>(index: Index<S>, domain: Value, name: Value, b: seq<S>)
    requires Pruned(index) && PrunedSet(b)
    ensures Pruned(index[domain := (if domain in index then index[domain] else map[])[name := b]])
  {
    var dm := if domain in index then index[domain] else map[];
    var stored := dm[name := b];
    assert PrunedDomain(stored) by {
      assert name in stored;
      forall n | n in stored ensures PrunedSet(stored[n]) {
        if n != name { assert stored[n] == index[domain][n]; }
      }
    }
  }

  /** Dropping one name from a domain that keeps other names keeps the registry invariant. */
  lemma PrunedDropName<S>(index: Index<S>, domain: Value, name: Value)
    requires Pruned(index) && domain in index && index[domain] - {name} != map[]
    ensures Pruned(index[domain := index[domain] - {name}])
  {
    var dm := index[domain] - {name};
    assert PrunedDomain(dm) by {
      forall n | n in dm ensures PrunedSet(dm[n]) {
        assert dm[n] == index[domain][n];
      }
    }
  }

  lemma PrunedDropDomain<S>(index: Index<S>, domain: Value)
    requires Pruned(index)
    ensures Pruned(index - {domain})
  {
    forall d | d in index - {domain} ensures PrunedDomain((index - {domain})[d]) {
      assert (index - {domain})[d] == index[d];
    }
  }

  lemma {:induction false} WithoutSubscriptionPruned<S>(index: Index<S>, socket: S, domain: Value, name: Value)
    requires Pruned(index)
    ensures Pruned(WithoutSubscription(index, socket, domain, name))
  {
    var dm := if domain in index then index[domain] else map[];
    var b := Remove(Bucket(index, domain, name), socket);
    if b != [] {
      RemoveNoDup(Bucket(index, domain, name), socket);
      PrunedStore(index, domain, name, b);
    } else if dm - {name} == map[] {
      PrunedDropDomain(index, domain);
    } else {
      PrunedDropName(index, domain, name);
    }
  }

  /** Deleting a subscription that does not exist leaves the index as it is. */
  lemma {:induction false} WithoutSubscriptionAbsent<S>(index: Index<S>, socket: S, domain: Value, name: Value)
    requires Pruned(index)
    requires socket !in Bucket(index, domain, name)
    ensures WithoutSubscription(index, socket, domain, name) == index
  {
    if domain in index && name in index[domain] {
      assert Remove(Bucket(index, domain, name), socket) == index[domain][name];
      assert index[domain][name := index[domain][name]] == index[domain];
      assert index[domain := index[domain]] == index;
    } else if domain in index {
      assert index[domain] - {name} == index[domain];
      assert index[domain := index[domain]] == index;
    }
  }

  /** After `destroy`, every `get` is empty. */
  lemma DestroyedEmpty<S>(index: Index<S>, d: Value, n: Value)
    requires index == map[]
    ensures Subscribed(index, d, n) == []
  {
  }

  // ---------------------------------------------------------------------
  // The registry as the source keeps it: one mutable nested map.

  class SubscribersManager<S(==)> {
    var index: Index<S>

    ghost predicate Valid() reads this {
      Pruned(index)
    }

    constructor ()
      ensures Valid() && index == map[]
    {
      index := map[];
    }

    method Destroy()
      modifies this
      ensures Valid() && index == map[]
    {
      index := map[];
    }

    method Add(socket: S, domain: Value, name: Value)
      requires Valid()
      modifies this
      ensures Valid() && index == Added(old(index), socket, domain, name)
    {
      AddedPruned(index, socket, domain, name);
      var domainMap := if domain in index then index[domain] else map[];
      var namedSet := if name in domainMap then domainMap[name] else [];
      if socket !in namedSet {
        namedSet := namedSet + [socket];
      }
      index := index[domain := domainMap[name := namedSet]];
    }

    method Get(domain: Value, name: Value) returns (r: seq<S>)
      requires Valid()
      ensures r == Subscribed(index, domain, name)
      ensures NoDup(r)
    {
      var domainMap := if domain in index then index[domain] else map[];
      var namedSet := if name in domainMap then domainMap[name] else [];
      var wildcardSet := if Wildcard in domainMap then domainMap[Wildcard] else [];
      r := AppendNew([], namedSet + wildcardSet);
      SubscribedShape(index, domain, name);
    }

    method DeleteBySocket(socket: S)
      requires Valid()
      modifies this
      ensures Valid() && index == WithoutSocket(old(index), socket)
    {
      var domains := index.Keys;
      ghost var done: set<Value> := {};
      while domains != {}
        invariant domains <= old(index).Keys && done == old(index).Keys - domains
        invariant index == Partial(old(index), socket, done)
        decreases domains
      {
        var d :| d in domains;
        PartialHas(old(index), socket, done, d);
        var domainMap := PruneNames(index[d], socket);
        PartialStep(old(index), socket, done, d);
        if domainMap == map[] {
          index := index - {d};
        } else {
          index := index[d := domainMap];
        }
        domains := domains - {d};
        done := done + {d};
      }
      PartialDone(old(index), socket, done);
      WithoutSocketPruned(old(index), socket);
    }

    method DeleteBySocketAndDomainAndName(socket: S, domain: Value, name: Value)
      requires Valid()
      modifies this
      ensures Valid() && index == WithoutSubscription(old(index), socket, domain, name)
    {
      WithoutSubscriptionPruned(index, socket, domain, name);
      var domainMap := if domain in index then index[domain] else map[];
      var namedSet := if name in domainMap then domainMap[name] else [];
      namedSet := Remove(namedSet, socket);
      if namedSet != [] {
        domainMap := domainMap[name := namedSet];
        index := index[domain := domainMap];
      } else {
        domainMap := domainMap - {name};
        if domain in index {
          index := index[domain := domainMap];
        }
        if domainMap == map[] {
          index := index - {domain};
        }
      }
    }
  }

  /**
   * The inner loop of `deleteBySocket`: delete `socket` from every set of
   * one domain's map, dropping each set that becomes empty. The source
   * mutates that Map object in place; here it is a value that is returned.
   */
  method PruneNames<S(==)>(domainMap: map<Value, seq<S>>, socket: S) returns (r: map<Value, seq<S>>)
    ensures r == PruneDomain(domainMap, socket)
  {
    r := domainMap;
    var names := domainMap.Keys;
    ghost var done: set<Value> := {};
    assert r == PartialDomain(domainMap, socket, done);
    while names != {}
      invariant names <= domainMap.Keys && done == domainMap.Keys - names
      invariant r == PartialDomain(domainMap, socket, done)
      decreases names
    {
      var n :| n in names;
      PartialDomainStep(domainMap, socket, done, n);
      r := r[n := Remove(r[n], socket)];
      if r[n] == [] {
        r := r - {n};
      }
      names := names - {n};
      done := done + {n};
    }
    PartialDomainDone(domainMap, socket, done);
  }

  lemma PartialHas<S>(index: Index<S>, socket: S, done: set<Value>, d: Value)
    requires d in index && d !in done
    ensures d in Partial(index, socket, done) && Partial(index, socket, done)[d] == index[d]
  {
  }

  /** The index part-way through `deleteBySocket`: the domains in `done` are pruned. */
  function Partial<S(==)>(index: Index<S>, socket: S, done: set<Value>): Index<S> {
    map d | d in index && (d in done ==> PruneDomain(index[d], socket) != map[]) ::
      if d in done then PruneDomain(index[d], socket) else index[d]
  }

  /** A domain map part-way through `deleteBySocket`: the names in `done` are pruned. */
  function PartialDomain<S(==)>(dm: map<Value, seq<S>>, socket: S, done: set<Value>): map<Value, seq<S>> {
    map n | n in dm && (n in done ==> Remove(dm[n], socket) != []) ::
      if n in done then Remove(dm[n], socket) else dm[n]
  }

  lemma PartialDomainStep<S>(dm: map<Value, seq<S>>, socket: S, done: set<Value>, n: Value)
    requires n in dm && n !in done
    ensures PartialDomain(dm, socket, done)[n := Remove(dm[n], socket)] - (if Remove(dm[n], socket) == [] then {n} else {})
         == PartialDomain(dm, socket, done + {n})
  {
  }

  lemma PartialDomainDone<S>(dm: map<Value, seq<S>>, socket: S, done: set<Value>)
    requires done == dm.Keys
    ensures PartialDomain(dm, socket, done) == PruneDomain(dm, socket)
  {
  }

  lemma PartialStep<S>(index: Index<S>, socket: S, done: set<Value>, d: Value)
    requires d in index && d !in done
    ensures (if PruneDomain(index[d], socket) == map[] then Partial(index, socket, done) - {d}
             else Partial(index, socket, done)[d := PruneDomain(index[d], socket)])
         == Partial(index, socket, done + {d})
  {
  }

  lemma PartialDone<S>(index: Index<S>, socket: S, done: set<Value>)
    requires done == index.Keys
    ensures Partial(index, socket, done) == WithoutSocket(index, socket)
  {
  }
}
