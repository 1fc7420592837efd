/** A Ruby Hash keeps its keys in insertion order: `h[k] = v` replaces the
    value of an existing key where it stands and appends a new key at the end,
    and `a.merge(b)` stores b's pairs into a copy of a, one after another.
    The order matters because the form adapter serialises its hash in order.
    A hash is modelled as its keys in order and the map from keys to values. */
module OrderedHash {
  import opened RubyValues

  datatype Hash<K> = Hash(keys: seq<K>, vals: map<K, Value>)

  
  /** No key twice, and the keys in order are exactly the keys of the map. */
  ghost predicate WellFormed<K(!new)>(h: Hash<K>) {
    (forall i, j :: 0 <= i < j < |h.keys| ==> h.keys[i] != h.keys[j]) &&
    (forall k :: k in h.vals <==> k in h.keys)
  }

  /** `h.has_key?(k)`. */
  predicate HasKey<K>(h: Hash<K>, k: K) {
    k in h.vals
  }

  /** `h[k]`: the value stored under k, nil when k is absent. */
  function Lookup<K>(h: Hash<K>, k: K): (r: Value)
    ensures !HasKey(h, k) ==> r == Nil
  {
    if k in h.vals then h.vals[k] else Nil
  }

  /** `h[k] = v`. */
  function Store<K>(h: Hash<K>, k: K, v: Value): (r: Hash<K>)
    ensures HasKey(r, k) && Lookup(r, k) == v
  {
    Hash(if k in h.vals then h.keys else h.keys + [k], h.vals[k := v])
  }

  /** Storing keeps a hash well formed: an existing key keeps its place, a
      new key goes to the end, and no other key or value changes. */
  lemma StoreWellFormed<K(!new)>(h: Hash<K>, k: K, v: Value)
    requires WellFormed(h)
    ensures WellFormed(Store(h, k, v))
    ensures forall j :: j != k ==> Lookup(Store(h, k, v), j) == Lookup(h, j)
    ensures HasKey(h, k) <==> k in h.keys
  {
    var r := Store(h, k, v);
    if k !in h.vals {
      forall i, j | 0 <= i < j < |r.keys| ensures r.keys[i] != r.keys[j] {
        if j == |h.keys| {
          assert r.keys[i] == h.keys[i];
        }
      }
    }
  }

  /** The pairs of `other`, in order, stored into h. */
  function StoreAll<K>(h: Hash<K>, ks: seq<K>, vals: map<K, Value>): Hash<K>
    decreases |ks|
  {
    if ks == [] then h
    else StoreAll(Store(h, ks[0], if ks[0] in vals then vals[ks[0]] else Nil), ks[1..], vals)
  }

  /** `a.merge(b)`. */
  function Merge<K>(a: Hash<K>, b: Hash<K>): Hash<K> {
    StoreAll(a, b.keys, b.vals)
  }

  lemma {:induction false} StoreAllLookup<K>(h: Hash<K>, ks: seq<K>, vals: map<K, Value>)
    ensures forall k :: HasKey(StoreAll(h, ks, vals), k) <==> HasKey(h, k) || k in ks
    ensures forall k :: Lookup(StoreAll(h, ks, vals), k) == if k in ks then Lookup(Hash(ks, vals), k) else Lookup(h, k)
    decreases |ks|
  {
    if ks != [] {
      var h' := Store(h, ks[0], if ks[0] in vals then vals[ks[0]] else Nil);
      StoreAllLookup(h', ks[1..], vals);
      assert forall k :: k in ks <==> k == ks[0] || k in ks[1..];
    }
  }

  lemma {:induction false} StoreAllKeys<K>(h: Hash<K>, ks: seq<K>, vals: map<K, Value>)
    ensures |StoreAll(h, ks, vals).keys| >= |h.keys|
    ensures StoreAll(h, ks, vals).keys[..|h.keys|] == h.keys
    ensures forall i :: |h.keys| <= i < |StoreAll(h, ks, vals).keys| ==> StoreAll(h, ks, vals).keys[i] in ks
    decreases |ks|
  {
    if ks != [] {
      var h' := Store(h, ks[0], if ks[0] in vals then vals[ks[0]] else Nil);
      StoreAllKeys(h', ks[1..], vals);
      var r := StoreAll(h, ks, vals);
      assert r == StoreAll(h', ks[1..], vals);
      assert h'.keys[..|h.keys|] == h.keys;
      assert r.keys[..|h.keys|] == h.keys by {
        assert r.keys[..|h.keys|] == r.keys[..|h'.keys|][..|h.keys|];
      }
      forall i | |h.keys| <= i < |r.keys| ensures r.keys[i] in ks {
        if i < |h'.keys| {
          assert h'.keys[i] == ks[0];
          assert r.keys[i] == r.keys[..|h'.keys|][i];
        } else {
          assert r.keys[i] in ks[1..];
        }
      }
    }
  }

  lemma {:induction false} StoreAllWellFormed<K(!new)>(h: Hash<K>, ks: seq<K>, vals: map<K, Value>)
    requires WellFormed(h)
    ensures WellFormed(StoreAll(h, ks, vals))
    decreases |ks|
  {
    if ks != [] {
      StoreWellFormed(h, ks[0], if ks[0] in vals then vals[ks[0]] else Nil);
      StoreAllWellFormed(Store(h, ks[0], if ks[0] in vals then vals[ks[0]] else Nil), ks[1..], vals);
    }
  }

  /** In `a.merge(b)` a key is present when either side has it, b's value
      wins, a's keys keep their places at the front, every key after them is
      one of b's, and a well-formed a gives a well-formed result. */
  lemma MergeFacts<K(!new)>(a: Hash<K>, b: Hash<K>)
    ensures forall k :: HasKey(Merge(a, b), k) <==> HasKey(a, k) || k in b.keys
    ensures forall k :: Lookup(Merge(a, b), k) == if k in b.keys then Lookup(b, k) else Lookup(a, k)
    ensures |Merge(a, b).keys| >= |a.keys| && Merge(a, b).keys[..|a.keys|] == a.keys
    ensures forall i :: |a.keys| <= i < |Merge(a, b).keys| ==> Merge(a, b).keys[i] in b.keys
    ensures WellFormed(a) ==> WellFormed(Merge(a, b))
  {
    StoreAllLookup(a, b.keys, b.vals);
    StoreAllKeys(a, b.keys, b.vals);
    if WellFormed(a) {
      StoreAllWellFormed(a, b.keys, b.vals);
    }
  }

  lemma {:induction false} StoreAllFresh<K>(h: Hash<K>, ks: seq<K>, vals: map<K, Value>)
    requires forall i, j :: 0 <= i < j < |ks| ==> ks[i] != ks[j]
    requires forall i :: 0 <= i < |ks| ==> !HasKey(h, ks[i])
    ensures StoreAll(h, ks, vals).keys == h.keys + ks
    decreases |ks|
  {
    if ks != [] {
      var h' := Store(h, ks[0], if ks[0] in vals then vals[ks[0]] else Nil);
      assert h'.keys == h.keys + [ks[0]];
      forall i | 0 <= i < |ks[1..]| ensures !HasKey(h', ks[1..][i]) {
        assert ks[1..][i] == ks[i + 1];
      }
      StoreAllFresh(h', ks[1..], vals);
      AppendCons(h.keys, ks);
    }
  }

  // Sequence identities, kept apart so that the proofs about keys in order
  // need not rediscover them.

  lemma AppendAssoc<T>(a: seq<T>, b: seq<T>, c: seq<T>)
    ensures a + b + c == a + (b + c)
  {
  }

  lemma AppendTwo<T>(a: seq<T>, x: T, y: T)
    ensures a + [x] + [y] == a + [x, y]
  {
  }

  lemma AppendThree<T>(a: seq<T>, x: T, y: T, z: T)
    ensures a + [x] + [y] + [z] == a + [x, y, z]
  {
  }

  lemma AppendCons<T>(a: seq<T>, b: seq<T>)
    requires b != []
    ensures a + [b[0]] + b[1..] == a + b
  {
    assert [b[0]] + b[1..] == b;
  }

  /** When b is well formed and none of its keys is in a, merging appends
      b's keys in b's order. */
  lemma MergeDisjoint<K(!new)>(a: Hash<K>, b: Hash<K>)
    requires WellFormed(b)
    requires forall i :: 0 <= i < |b.keys| ==> !HasKey(a, b.keys[i])
    ensures Merge(a, b).keys == a.keys + b.keys
  {
    StoreAllFresh(a, b.keys, b.vals);
  }

  /** The `post` hash of the form adapter, filled in place by its helpers. */
  class PostHash<K(==,!new)> {
    var contents: Hash<K>

    ghost predicate Valid()
      reads this
    {
      WellFormed(contents)
    }

    constructor ()
      ensures Valid() && contents == Hash([], map[])
    {
      contents := Hash([], map[]);
    }

    /** `post[k] = v`. */
    method Set(k: K, v: Value)
      requires Valid()
      modifies this
      ensures Valid()
      ensures contents == Store(old(contents), k, v)
    {
      StoreWellFormed(contents, k, v);
      contents := Store(contents, k, v);
    }
  }
}
