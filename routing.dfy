/** The shard router: getNodePayload splits a batch into per-node buckets keyed by
    crc32(userId + ":" + anonymousId) mod totalNodes, and getRevisedMsgs gathers the buckets
    whose key is at least a starting key. The checksum is a parameter `hash`: nothing below
    depends on what it computes. */
module Routing {
  import opened Wrappers
  import opened Messages

  /** The two fields a serialized message is decoded into for routing. */
  datatype Identity = Identity(userId: string, anonymousId: string)

  /** The serialized form of a message, as far as the engine looks at it: what decoding it as
      a batchRequest yields (None when json.Unmarshal fails), its size in bytes, and the error
      setSentAt reports when it cannot rewrite it. */
  datatype Json = Json(identity: Option<Identity>, size: nat, stampError: Option<string>)

  /** A queued message: the message and its serialized form (the `message` struct). */
  datatype Packed = Packed(msg: Event, json: Json)

  /** A node payload: the map from node key to bucket, and the order in which its keys were
      first produced (a way to enumerate the map's keys; Go's map has no order of its own). */
  datatype Payload = Payload(keys: seq<int>, buckets: map<int, seq<Packed>>)

  function Abs(n: int): nat { if n < 0 then -n else n }

  predicate Parses(q: Packed) { q.json.identity.Some? }

  predicate AnyParses(msgs: seq<Packed>) {
    exists i :: 0 <= i < |msgs| && Parses(msgs[i])
  }

  /** Each element occurs at most once. */
  predicate Distinct<T(==)>(s: seq<T>) {
    forall i, j :: 0 <= i < j < |s| ==> s[i] != s[j]
  }

  function ShardString(id: Identity): string {
    id.userId + ":" + id.anonymousId
  }

  /** The node key of a message. The checksum is an unsigned 32-bit value; converted to a
      64-bit Go int it is non-negative, and for a non-negative dividend Go's `%` agrees with
      Dafny's. (On a 32-bit int the conversion can go negative; that case is not modelled.) */
  function KeyOf(q: Packed, n: int, hash: string -> nat): (r: Option<int>)
    requires n != 0
    ensures r.Some? <==> Parses(q)
    ensures r.Some? ==> 0 <= r.value < Abs(n)
  {
    if q.json.identity.None? then None else Some(hash(ShardString(q.json.identity.value)) % n)
  }

  /** The messages of `msgs` that go to node key `k`, in input order. */
  function Bucket(msgs: seq<Packed>, n: int, hash: string -> nat, k: int): seq<Packed>
    requires n != 0
  {
    if msgs == [] then []
    else
      var last := msgs[|msgs| - 1];
      Bucket(msgs[..|msgs| - 1], n, hash, k) + (if KeyOf(last, n, hash) == Some(k) then [last] else [])
  }

  /** The node keys of `msgs` in order of first appearance. */
  function Keys(msgs: seq<Packed>, n: int, hash: string -> nat): seq<int>
    requires n != 0
  {
    if msgs == [] then []
    else
      var prev := Keys(msgs[..|msgs| - 1], n, hash);
      var key := KeyOf(msgs[|msgs| - 1], n, hash);
      prev + (if key.Some? && key.value !in prev then [key.value] else [])
  }

  function BucketMap(msgs: seq<Packed>, n: int, hash: string -> nat): map<int, seq<Packed>>
    requires n != 0
  {
    map k | k in Keys(msgs, n, hash) :: Bucket(msgs, n, hash, k)
  }

  /** What getNodePayload computes: None when it faults, which is when the node count is zero
      and some message decodes (the modulus by zero); messages that do not decode are skipped. */
  function Route(msgs: seq<Packed>, n: int, hash: string -> nat): (r: Option<Payload>)
    ensures r.None? <==> n == 0 && AnyParses(msgs)
  {
    if n == 0 then
      if AnyParses(msgs) then None else Some(Payload([], map[]))
    else
      Some(Payload(Keys(msgs, n, hash), BucketMap(msgs, n, hash)))
  }

  /** getNodePayload, with the node count read once into `totalNodes`. */
  method GetNodePayload(msgs: seq<Packed>, totalNodes: int, hash: string -> nat) returns (r: Option<Payload>)
    ensures r == Route(msgs, totalNodes, hash)
  {
    var keys: seq<int> := [];
    var buckets: map<int, seq<Packed>> := map[];
    var i := 0;
    while i < |msgs|
      invariant 0 <= i <= |msgs|
      invariant totalNodes == 0 ==> !AnyParses(msgs[..i]) && keys == [] && buckets == map[]
      invariant totalNodes != 0 ==> keys == Keys(msgs[..i], totalNodes, hash)
      invariant totalNodes != 0 ==> buckets == BucketMap(msgs[..i], totalNodes, hash)
    {
      var q := msgs[i];
      assert msgs[..i + 1] == msgs[..i] + [q];
      if q.json.identity.Some? {
        if totalNodes == 0 {
          assert Parses(msgs[i]);
          return None;
        }
        var key := hash(ShardString(q.json.identity.value)) % totalNodes;
        PayloadStep(msgs[..i], q, totalNodes, hash, keys, buckets);
        if key in buckets {
          buckets := buckets[key := buckets[key] + [q]];
        } else {
          keys := keys + [key];
          buckets := buckets[key := [q]];
        }
      } else if totalNodes != 0 {
        PayloadSkip(msgs[..i], q, totalNodes, hash);
      }
      i := i + 1;
    }
    assert msgs[..i] == msgs;
    if totalNodes == 0 {
      r := Some(Payload([], map[]));
    } else {
      r := Some(Payload(keys, buckets));
    }
  }

  lemma {:induction false} BucketEmptyOffKeys(msgs: seq<Packed>, n: int, hash: string -> nat, k: int)
    requires n != 0
    ensures k !in Keys(msgs, n, hash) <==> Bucket(msgs, n, hash, k) == []
  {
    if msgs != [] {
      BucketEmptyOffKeys(msgs[..|msgs| - 1], n, hash, k);
    }
  }

  /** One step of getNodePayload for a message that does not decode: nothing changes. */
  lemma PayloadSkip(prefix: seq<Packed>, q: Packed, n: int, hash: string -> nat)
    requires n != 0 && !Parses(q)
    ensures Keys(prefix + [q], n, hash) == Keys(prefix, n, hash)
    ensures BucketMap(prefix + [q], n, hash) == BucketMap(prefix, n, hash)
  {
    var msgs := prefix + [q];
    assert msgs[..|msgs| - 1] == prefix;
    assert Keys(msgs, n, hash) == Keys(prefix, n, hash);
    forall k | k in Keys(prefix, n, hash)
      ensures Bucket(msgs, n, hash, k) == Bucket(prefix, n, hash, k)
    {
    }
  }

  /** One step of getNodePayload for a message that decodes: it is appended to the bucket of
      its key, which is created when the key is new; no other bucket changes. */
  lemma PayloadGrow(prefix: seq<Packed>, q: Packed, n: int, hash: string -> nat)
    requires n != 0 && Parses(q)
    ensures var key := KeyOf(q, n, hash).value;
            && (key in BucketMap(prefix, n, hash) <==> key in Keys(prefix, n, hash))
            && (key !in Keys(prefix, n, hash) ==> Bucket(prefix, n, hash, key) == [])
            && Keys(prefix + [q], n, hash) == Keys(prefix, n, hash) + (if key in Keys(prefix, n, hash) then [] else [key])
            && BucketMap(prefix + [q], n, hash) == BucketMap(prefix, n, hash)[key := Bucket(prefix, n, hash, key) + [q]]
  {
    var msgs := prefix + [q];
    var key := KeyOf(q, n, hash).value;
    assert msgs[..|msgs| - 1] == prefix;
    BucketEmptyOffKeys(prefix, n, hash, key);
    var keys := Keys(prefix, n, hash);
    assert Keys(msgs, n, hash) == keys + (if key in keys then [] else [key]);
    var after := BucketMap(msgs, n, hash);
    var expected := BucketMap(prefix, n, hash)[key := Bucket(prefix, n, hash, key) + [q]];
    assert after.Keys == expected.Keys;
    forall k | k in after
      ensures after[k] == expected[k]
    {
      assert Bucket(msgs, n, hash, k) == Bucket(prefix, n, hash, k) + (if k == key then [q] else []);
    }
  }

  /** The same step, in terms of the keys and buckets built so far. */
  lemma PayloadStep(prefix: seq<Packed>, q: Packed, n: int, hash: string -> nat, keys: seq<int>, buckets: map<int, seq<Packed>>)
    requires n != 0 && Parses(q)
    requires keys == Keys(prefix, n, hash) && buckets == BucketMap(prefix, n, hash)
    ensures var key := hash(ShardString(q.json.identity.value)) % n;
            && (key in buckets ==>
                  Keys(prefix + [q], n, hash) == keys && BucketMap(prefix + [q], n, hash) == buckets[key := buckets[key] + [q]])
            && (key !in buckets ==>
                  Keys(prefix + [q], n, hash) == keys + [key] && BucketMap(prefix + [q], n, hash) == buckets[key := [q]])
  {
    var key := hash(ShardString(q.json.identity.value)) % n;
    assert KeyOf(q, n, hash).value == key;
    PayloadGrow(prefix, q, n, hash);
    if key in buckets {
      assert buckets[key] == Bucket(prefix, n, hash, key);
    } else {
      assert Bucket(prefix, n, hash, key) + [q] == [q];
    }
  }

  /** A message is in bucket `k` exactly when it is one of the input messages, decodes, and
      hashes to `k`. */
  lemma {:induction false} BucketMembership(msgs: seq<Packed>, n: int, hash: string -> nat, k: int, x: Packed)
    requires n != 0
    ensures x in Bucket(msgs, n, hash, k) <==> x in msgs && KeyOf(x, n, hash) == Some(k)
  {
    if msgs != [] {
      var prev := msgs[..|msgs| - 1];
      BucketMembership(prev, n, hash, k, x);
      assert msgs == prev + [msgs[|msgs| - 1]];
    }
  }

  /** Routing keeps input order: routing a concatenation routes each part and concatenates. */
  lemma {:induction false} BucketConcat(a: seq<Packed>, b: seq<Packed>, n: int, hash: string -> nat, k: int)
    requires n != 0
    ensures Bucket(a + b, n, hash, k) == Bucket(a, n, hash, k) + Bucket(b, n, hash, k)
  {
    if b != [] {
      var b' := b[..|b| - 1];
      assert (a + b)[..|a + b| - 1] == a + b';
      BucketConcat(a, b', n, hash, k);
    } else {
      assert a + b == a;
    }
  }

  lemma {:induction false} KeysDistinct(msgs: seq<Packed>, n: int, hash: string -> nat)
    requires n != 0
    ensures Distinct(Keys(msgs, n, hash))
  {
    if msgs != [] {
      KeysDistinct(msgs[..|msgs| - 1], n, hash);
    }
  }

  lemma {:induction false} KeysComplete(msgs: seq<Packed>, n: int, hash: string -> nat, x: Packed)
    requires n != 0 && x in msgs && Parses(x)
    ensures KeyOf(x, n, hash).value in Keys(msgs, n, hash)
  {
    var prev := msgs[..|msgs| - 1];
    assert msgs == prev + [msgs[|msgs| - 1]];
    if x in prev {
      KeysComplete(prev, n, hash, x);
    }
  }

  /** With a non-zero node count the key list enumerates the map's keys once each, and every
      bucket is non-empty and keyed within [0, |n|). */
  lemma RouteShape(msgs: seq<Packed>, n: int, hash: string -> nat)
    requires n != 0
    ensures Route(msgs, n, hash) == Some(Payload(Keys(msgs, n, hash), BucketMap(msgs, n, hash)))
    ensures Distinct(Keys(msgs, n, hash))
    ensures forall k :: k in Keys(msgs, n, hash) <==> k in BucketMap(msgs, n, hash)
    ensures forall k :: k in BucketMap(msgs, n, hash) ==> 0 <= k < Abs(n) && BucketMap(msgs, n, hash)[k] != []
  {
    KeysDistinct(msgs, n, hash);
    var buckets := BucketMap(msgs, n, hash);
    forall k | k in buckets
      ensures 0 <= k < Abs(n) && buckets[k] != []
    {
      BucketEmptyOffKeys(msgs, n, hash, k);
      BucketMembership(msgs, n, hash, k, buckets[k][0]);
    }
  }

  /** With a non-zero node count every decodable message lands in exactly one bucket, the one
      of its key; undecodable messages land in none. */
  lemma RouteExactlyOnce(msgs: seq<Packed>, n: int, hash: string -> nat, x: Packed)
    requires n != 0
    ensures forall k :: k in BucketMap(msgs, n, hash) && x in BucketMap(msgs, n, hash)[k] ==>
              x in msgs && KeyOf(x, n, hash) == Some(k)
    ensures x in msgs && Parses(x) ==>
              KeyOf(x, n, hash).value in BucketMap(msgs, n, hash)
              && x in BucketMap(msgs, n, hash)[KeyOf(x, n, hash).value]
  {
    var buckets := BucketMap(msgs, n, hash);
    forall k | k in buckets && x in buckets[k]
      ensures x in msgs && KeyOf(x, n, hash) == Some(k)
    {
      BucketMembership(msgs, n, hash, k, x);
    }
    if x in msgs && Parses(x) {
      KeysComplete(msgs, n, hash, x);
      BucketMembership(msgs, n, hash, KeyOf(x, n, hash).value, x);
    }
  }

  /** The buckets visited in `order`, concatenated, keeping those with key >= startFrom. */
  function Collect(buckets: map<int, seq<Packed>>, order: seq<int>, startFrom: int): seq<Packed>
    requires forall k :: k in order ==> k in buckets
  {
    if order == [] then []
    else
      var last := order[|order| - 1];
      Collect(buckets, order[..|order| - 1], startFrom) + (if last >= startFrom then buckets[last] else [])
  }

  /** getRevisedMsgs, with the map's iteration order made explicit as `order`. */
  method GetRevisedMsgs(buckets: map<int, seq<Packed>>, order: seq<int>, startFrom: int) returns (msgs: seq<Packed>)
    requires forall k :: k in order ==> k in buckets
    ensures msgs == Collect(buckets, order, startFrom)
  {
    msgs := [];
    var j := 0;
    while j < |order|
      invariant 0 <= j <= |order|
      invariant msgs == Collect(buckets, order[..j], startFrom)
    {
      var k := order[j];
      assert order[..j + 1][..j] == order[..j];
      if k >= startFrom {
        msgs := msgs + buckets[k];
      }
      j := j + 1;
    }
    assert order[..j] == order;
  }

  /** The decodable messages of `msgs` whose key lies in `ks`, in input order. */
  function KeyedIn(msgs: seq<Packed>, n: int, hash: string -> nat, ks: set<int>): seq<Packed>
    requires n != 0
  {
    if msgs == [] then []
    else
      var last := msgs[|msgs| - 1];
      var key := KeyOf(last, n, hash);
      KeyedIn(msgs[..|msgs| - 1], n, hash, ks) + (if key.Some? && key.value in ks then [last] else [])
  }

  /** The decodable messages of `msgs` whose key is at least `startFrom`, in input order: the
      reference definition of "the remaining messages" for getRevisedMsgs. */
  function AtLeast(msgs: seq<Packed>, n: int, hash: string -> nat, startFrom: int): seq<Packed>
    requires n != 0
  {
    if msgs == [] then []
    else
      var last := msgs[|msgs| - 1];
      var key := KeyOf(last, n, hash);
      AtLeast(msgs[..|msgs| - 1], n, hash, startFrom) + (if key.Some? && key.value >= startFrom then [last] else [])
  }

  lemma {:induction false} KeyedInSplit(msgs: seq<Packed>, n: int, hash: string -> nat, ks: set<int>, k: int)
    requires n != 0 && k !in ks
    ensures multiset(KeyedIn(msgs, n, hash, ks + {k}))
         == multiset(KeyedIn(msgs, n, hash, ks)) + multiset(Bucket(msgs, n, hash, k))
  {
    if msgs != [] {
      KeyedInSplit(msgs[..|msgs| - 1], n, hash, ks, k);
    }
  }

  lemma {:induction false} CollectKeyedIn(msgs: seq<Packed>, n: int, hash: string -> nat, order: seq<int>, startFrom: int)
    requires n != 0
    requires Distinct(order)
    requires forall k :: k in order ==> k in BucketMap(msgs, n, hash)
    ensures multiset(Collect(BucketMap(msgs, n, hash), order, startFrom))
         == multiset(KeyedIn(msgs, n, hash, set k | k in order && k >= startFrom))
  {
    var ks := set k | k in order && k >= startFrom;
    if order == [] {
      KeyedInEmpty(msgs, n, hash);
      assert ks == {};
    } else {
      var prev := order[..|order| - 1];
      var last := order[|order| - 1];
      var kp := set k | k in prev && k >= startFrom;
      CollectKeyedIn(msgs, n, hash, prev, startFrom);
      assert last !in prev;
      if last >= startFrom {
        assert ks == kp + {last};
        KeyedInSplit(msgs, n, hash, kp, last);
      } else {
        assert ks == kp;
      }
    }
  }

  lemma {:induction false} KeyedInEmpty(msgs: seq<Packed>, n: int, hash: string -> nat)
    requires n != 0
    ensures KeyedIn(msgs, n, hash, {}) == []
  {
    if msgs != [] {
      KeyedInEmpty(msgs[..|msgs| - 1], n, hash);
    }
  }

  lemma {:induction false} KeyedInAtLeast(msgs: seq<Packed>, n: int, hash: string -> nat, ks: set<int>, startFrom: int)
    requires n != 0
    requires forall k :: k in Keys(msgs, n, hash) && k >= startFrom ==> k in ks
    requires forall k :: k in ks ==> k >= startFrom
    ensures KeyedIn(msgs, n, hash, ks) == AtLeast(msgs, n, hash, startFrom)
  {
    if msgs != [] {
      KeyedInAtLeast(msgs[..|msgs| - 1], n, hash, ks, startFrom);
    }
  }

  /** getRevisedMsgs over a routed payload yields, whatever the iteration order, exactly the
      decodable messages whose key is at least `startFrom`, each as often as it was routed. */
  lemma RevisedExact(msgs: seq<Packed>, n: int, hash: string -> nat, order: seq<int>, startFrom: int)
    requires n != 0
    requires multiset(order) == multiset(Route(msgs, n, hash).value.keys)
    ensures forall k :: k in order ==> k in Route(msgs, n, hash).value.buckets
    ensures multiset(Collect(Route(msgs, n, hash).value.buckets, order, startFrom))
         == multiset(AtLeast(msgs, n, hash, startFrom))
  {
    var keys := Keys(msgs, n, hash);
    KeysDistinct(msgs, n, hash);
    PermutationKeepsDistinct(keys, order);
    forall k | k in order ensures k in keys {
      assert multiset(order)[k] > 0;
    }
    CollectKeyedIn(msgs, n, hash, order, startFrom);
    var ks := set k | k in order && k >= startFrom;
    forall k | k in keys && k >= startFrom ensures k in ks {
      assert multiset(keys)[k] > 0;
    }
    KeyedInAtLeast(msgs, n, hash, ks, startFrom);
  }

  lemma PermutationKeepsDistinct(a: seq<int>, b: seq<int>)
    requires Distinct(a) && multiset(a) == multiset(b)
    ensures Distinct(b)
  {
    DistinctCounts(a);
    CountsDistinct(b);
  }

  lemma {:induction false} CountsDistinct(b: seq<int>)
    requires forall x :: multiset(b)[x] <= 1
    ensures Distinct(b)
  {
    if b != [] {
      var prev := b[..|b| - 1];
      var last := b[|b| - 1];
      assert b == prev + [last];
      forall x ensures multiset(prev)[x] <= 1 {
        assert multiset(b)[x] == multiset(prev)[x] + multiset([last])[x];
      }
      CountsDistinct(prev);
      assert multiset(b)[last] == multiset(prev)[last] + 1;
      assert last !in prev;
      forall i, j | 0 <= i < j < |b| ensures b[i] != b[j] {
        if j < |prev| {
          assert b[i] == prev[i] && b[j] == prev[j];
        } else {
          assert b[i] == prev[i] && prev[i] in prev;
        }
      }
    }
  }

  lemma {:induction false} DistinctCounts(a: seq<int>)
    requires Distinct(a)
    ensures forall x :: multiset(a)[x] <= 1
  {
    if a != [] {
      var prev := a[..|a| - 1];
      DistinctCounts(prev);
      assert a == prev + [a[|a| - 1]];
      assert a[|a| - 1] !in prev;
    }
  }

  lemma {:induction false} AtLeastMembership(msgs: seq<Packed>, n: int, hash: string -> nat, startFrom: int, x: Packed)
    requires n != 0
    ensures x in AtLeast(msgs, n, hash, startFrom) <==> x in msgs && Parses(x) && KeyOf(x, n, hash).value >= startFrom
  {
    if msgs != [] {
      var prev := msgs[..|msgs| - 1];
      AtLeastMembership(prev, n, hash, startFrom, x);
      assert msgs == prev + [msgs[|msgs| - 1]];
    }
  }

  /** The "remaining" set is loose: whether a bucket is re-sent depends only on its key, not on
      whether it was already tried. A bucket visited earlier with a key >= startFrom is re-sent
      although it may have been acknowledged, and a bucket not yet visited with a smaller key
      is left out although it was never sent. */
  lemma RevisedIgnoresProgress(msgs: seq<Packed>, n: int, hash: string -> nat, order: seq<int>, startFrom: int, k: int, x: Packed)
    requires n != 0
    requires multiset(order) == multiset(Route(msgs, n, hash).value.keys)
    requires k in Route(msgs, n, hash).value.buckets && x in Route(msgs, n, hash).value.buckets[k]
    ensures forall k' :: k' in order ==> k' in Route(msgs, n, hash).value.buckets
    ensures x in Collect(Route(msgs, n, hash).value.buckets, order, startFrom) <==> k >= startFrom
  {
    var p := Route(msgs, n, hash).value;
    RevisedExact(msgs, n, hash, order, startFrom);
    BucketMembership(msgs, n, hash, k, x);
    AtLeastMembership(msgs, n, hash, startFrom, x);
    var c := Collect(p.buckets, order, startFrom);
    assert x in c <==> multiset(c)[x] > 0;
    assert x in AtLeast(msgs, n, hash, startFrom) <==> multiset(AtLeast(msgs, n, hash, startFrom))[x] > 0;
  }
}
