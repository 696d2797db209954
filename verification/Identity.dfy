// Matching the peers of a new configuration with the records of the previous one
// (ngx_healthcheck_common.c, lines 89-231).

module Identity {
  import opened Time

  type Bytes = seq<bv8>

  // What an old shared record remembers of its peer, and what a new peer is configured as.
  datatype Stored = Stored(name: Bytes, address: Bytes, checkAddress: Bytes, checkType: U64)

  datatype Peer = Peer(name: Bytes, address: Bytes, checkAddress: Bytes, checkType: U64, udp: bool, defaultDown: bool)

  // The full identity: two peers are the same exactly when all four parts are.
  datatype Key = Key(name: Bytes, address: Bytes, checkAddress: Bytes, checkType: U64)

  function StoredKey(s: Stored): Key { Key(s.name, s.address, s.checkAddress, s.checkType) }

  function PeerKey(p: Peer): Key { Key(p.name, p.address, p.checkAddress, p.checkType) }

  function MemoryEqual(a: Bytes, b: Bytes, length: nat): bool
    requires length <= |a| && length <= |b|
  {
    a[..length] == b[..length]
  }

  predicate Equal(s: Stored, p: Peer) {
    && s.checkType == p.checkType && |s.name| == |p.name|
    && |s.address| == |p.address| && |s.checkAddress| == |p.checkAddress|
    && MemoryEqual(s.name, p.name, |s.name|)
    && MemoryEqual(s.address, p.address, |s.address|)
    && MemoryEqual(s.checkAddress, p.checkAddress, |s.checkAddress|)
  }

  lemma EqualIsSameKey(s: Stored, p: Peer)
    ensures Equal(s, p) <==> StoredKey(s) == PeerKey(p)
    ensures Equal(s, p) <==>
      s.name == p.name && s.address == p.address && s.checkAddress == p.checkAddress && s.checkType == p.checkType
  {
    if Equal(s, p) {
      assert s.name == s.name[..|s.name|] && p.name == p.name[..|p.name|];
      assert s.address == s.address[..|s.address|] && p.address == p.address[..|p.address|];
      assert s.checkAddress == s.checkAddress[..|s.checkAddress|] && p.checkAddress == p.checkAddress[..|p.checkAddress|];
    }
  }

  // ---- Hashing ----

  const HASH_SEED: U64 := 2166136261
  const HASH_FACTOR: U64 := 16777619

  // Exclusive or with one byte changes only the lowest eight bits; the product wraps.
  function HashStep(hash: U64, byte: bv8): U64 {
    var low := ((hash % 256) as bv8 ^ byte) as nat;
    (hash / 256 * 256 + low) * HASH_FACTOR % (U64_MAX + 1)
  }

  function HashBytes(hash: U64, data: Bytes): U64
    decreases |data|
  {
    if data == [] then hash else HashBytes(HashStep(hash, data[0]), data[1..])
  }

  method ComputeHashBytes(hash: U64, data: Bytes) returns (result: U64)
    ensures result == HashBytes(hash, data)
  {
    hide HashStep;
    result := hash;
    var i := 0;
    while i < |data|
      invariant i <= |data|
      invariant HashBytes(result, data[i..]) == HashBytes(hash, data)
    {
      assert data[i..][0] == data[i] && data[i..][1..] == data[i + 1..];
      result := HashStep(result, data[i]);
      i := i + 1;
    }
    assert data[i..] == [];
  }

  // The eight bytes of the check type in memory.
  function TypeBytes(checkType: nat, width: nat): Bytes
    decreases width
  {
    if width == 0 then [] else [(checkType % 256) as bv8] + TypeBytes(checkType / 256, width - 1)
  }

  function StoredHash(s: Stored): U64 {
    HashBytes(HashBytes(HashBytes(HashBytes(HASH_SEED, s.name), s.address), s.checkAddress), TypeBytes(s.checkType, 8))
  }

  function PeerHash(p: Peer): U64 {
    HashBytes(HashBytes(HashBytes(HashBytes(HASH_SEED, p.name), p.address), p.checkAddress), TypeBytes(p.checkType, 8))
  }

  function Bucket(hash: U64, count: nat): (b: nat)
    requires 0 < count
    ensures b < count
  {
    hash % count
  }

  // A peer is only ever looked for in the chain its equal was put in.
  lemma EqualHashEqually(s: Stored, p: Peer, count: nat)
    requires 0 < count && Equal(s, p)
    ensures Bucket(StoredHash(s), count) == Bucket(PeerHash(p), count)
  {
    EqualIsSameKey(s, p);
  }

  // ---- Naive matching: the definition the index has to agree with ----

  // The highest-numbered old record below n that is still unused and equal to the peer.
  function Latest(olds: seq<Stored>, left: set<nat>, p: Peer, n: nat): (r: Option<nat>)
    requires n <= |olds|
    ensures r.Some? ==> r.value < n && r.value in left && Equal(olds[r.value], p)
    ensures r.Some? ==> forall i :: r.value < i < n && i in left ==> !Equal(olds[i], p)
    ensures r.None? ==> forall i :: 0 <= i < n && i in left ==> !Equal(olds[i], p)
  {
    if n == 0 then None
    else if n - 1 in left && Equal(olds[n - 1], p) then Some(n - 1)
    else Latest(olds, left, p, n - 1)
  }

  function Used(left: set<nat>, r: Option<nat>): set<nat> { if r.Some? then left - {r.value} else left }

  function Matching(olds: seq<Stored>, left: set<nat>, peers: seq<Peer>): seq<Option<nat>>
    decreases |peers|
  {
    if peers == [] then []
    else
      var r := Latest(olds, left, peers[0], |olds|);
      [r] + Matching(olds, Used(left, r), peers[1..])
  }

  lemma {:induction false} MatchingLength(olds: seq<Stored>, left: set<nat>, peers: seq<Peer>)
    ensures |Matching(olds, left, peers)| == |peers|
    decreases |peers|
  {
    if peers != [] {
      MatchingLength(olds, Used(left, Latest(olds, left, peers[0], |olds|)), peers[1..]);
    }
  }

  // No old record is used twice, and every match is of equal identity.
  lemma {:induction false} MatchingIsOneToOne(olds: seq<Stored>, left: set<nat>, peers: seq<Peer>)
    ensures var m := Matching(olds, left, peers);
      && |m| == |peers|
      && (forall j :: 0 <= j < |m| && m[j].Some? ==>
            m[j].value < |olds| && m[j].value in left && StoredKey(olds[m[j].value]) == PeerKey(peers[j]))
      && (forall j, k :: 0 <= j < k < |m| && m[j].Some? && m[k].Some? ==> m[j].value != m[k].value)
    decreases |peers|
  {
    if peers != [] {
      var r := Latest(olds, left, peers[0], |olds|);
      MatchingIsOneToOne(olds, Used(left, r), peers[1..]);
      var m := Matching(olds, left, peers);
      var rest := Matching(olds, Used(left, r), peers[1..]);
      assert forall j :: 1 <= j < |m| ==> m[j] == rest[j - 1] && peers[j] == peers[1..][j - 1];
      if r.Some? {
        EqualIsSameKey(olds[r.value], peers[0]);
      }
    }
  }

  // ---- How many records each identity inherits ----

  function Unused(olds: seq<Stored>, left: set<nat>, key: Key, n: nat): nat
    requires n <= |olds|
  {
    if n == 0 then 0
    else Unused(olds, left, key, n - 1) + if n - 1 in left && StoredKey(olds[n - 1]) == key then 1 else 0
  }

  function Wanting(peers: seq<Peer>, key: Key): nat {
    if peers == [] then 0 else (if PeerKey(peers[0]) == key then 1 else 0) + Wanting(peers[1..], key)
  }

  function Inheriting(matches: seq<Option<nat>>, peers: seq<Peer>, key: Key): nat
    requires |matches| == |peers|
  {
    if peers == [] then 0
    else (if matches[0].Some? && PeerKey(peers[0]) == key then 1 else 0) + Inheriting(matches[1..], peers[1..], key)
  }

  lemma {:induction false} UnusedAfter(olds: seq<Stored>, left: set<nat>, key: Key, n: nat, r: nat)
    requires n <= |olds| && r in left && r < |olds|
    ensures Unused(olds, left - {r}, key, n) + (if r < n && StoredKey(olds[r]) == key then 1 else 0) == Unused(olds, left, key, n)
  {
    if n > 0 {
      UnusedAfter(olds, left, key, n - 1, r);
    }
  }

  lemma {:induction false} NoneUnused(olds: seq<Stored>, left: set<nat>, key: Key, n: nat)
    requires n <= |olds| && forall i :: 0 <= i < n && i in left ==> StoredKey(olds[i]) != key
    ensures Unused(olds, left, key, n) == 0
  {
    if n > 0 {
      NoneUnused(olds, left, key, n - 1);
    }
  }

  // A reload inherits, for every identity, the smaller of its old and its new multiplicity.
  lemma {:induction false} InheritsMinimum(olds: seq<Stored>, left: set<nat>, peers: seq<Peer>, key: Key)
    ensures |Matching(olds, left, peers)| == |peers|
    ensures Inheriting(Matching(olds, left, peers), peers, key) == Min(Unused(olds, left, key, |olds|), Wanting(peers, key))
    decreases |peers|
  {
    MatchingLength(olds, left, peers);
    if peers != [] {
      var r := Latest(olds, left, peers[0], |olds|);
      InheritsMinimum(olds, Used(left, r), peers[1..], key);
      assert Matching(olds, left, peers)[1..] == Matching(olds, Used(left, r), peers[1..]);
      if r.Some? {
        UnusedAfter(olds, left, key, |olds|, r.value);
        EqualIsSameKey(olds[r.value], peers[0]);
      } else if PeerKey(peers[0]) == key {
        forall i | 0 <= i < |olds| && i in left ensures StoredKey(olds[i]) != key {
          EqualIsSameKey(olds[i], peers[0]);
        }
        NoneUnused(olds, left, key, |olds|);
      }
    }
  }

  // ---- The chained index ----

  class Node {
    const peer: nat
    var next: Node?

    constructor (peer: nat, next: Node?)
      ensures this.peer == peer && this.next == next
    {
      this.peer, this.next := peer, next;
    }
  }

  function Nth(chain: seq<Node>, k: nat): Node? { if k < |chain| then chain[k] else null }

  function Numbers(chain: seq<Node>): (s: seq<nat>)
    ensures |s| == |chain|
  {
    seq(|chain|, k requires 0 <= k < |chain| => chain[k].peer)
  }

  // The links of one chain, newest record first.
  ghost predicate Linked(head: Node?, chain: seq<Node>)
    reads chain
  {
    && head == Nth(chain, 0)
    && (forall k :: 0 <= k < |chain| ==> chain[k].next == Nth(chain, k + 1))
  }

  ghost predicate Descending(chain: seq<Node>) {
    forall j, k :: 0 <= j < k < |chain| ==> chain[j].peer > chain[k].peer
  }

  // Where the records of one chain come from and what is known about them.
  ghost predicate Filed(olds: seq<Stored>, count: nat, b: nat, left: set<nat>, repr: set<Node>, chain: seq<Node>)
    requires 0 < count
  {
    forall k :: 0 <= k < |chain| ==>
      var node := chain[k];
      node in repr && node.peer < |olds| && node.peer in left && Bucket(StoredHash(olds[node.peer]), count) == b
  }

  ghost predicate ChainOk(olds: seq<Stored>, count: nat, b: nat, left: set<nat>, repr: set<Node>, head: Node?, chain: seq<Node>)
    requires 0 < count
    reads chain
  {
    Linked(head, chain) && Descending(chain) && Filed(olds, count, b, left, repr, chain)
  }

  lemma PushChain(olds: seq<Stored>, count: nat, b: nat, left: set<nat>, repr: set<Node>, node: Node, chain: seq<Node>)
    requires 0 < count && ChainOk(olds, count, b, left, repr, node.next, chain)
    requires node.peer < |olds| && Bucket(StoredHash(olds[node.peer]), count) == b
    requires forall j :: j in left ==> j < node.peer
    ensures ChainOk(olds, count, b, left + {node.peer}, repr + {node}, node, [node] + chain)
    ensures Numbers([node] + chain) == [node.peer] + Numbers(chain)
  {
    hide StoredHash, Bucket;
  }

  lemma GrowChain(olds: seq<Stored>, count: nat, b: nat, left: set<nat>, repr: set<Node>, head: Node?, chain: seq<Node>, i: nat, node: Node)
    requires 0 < count && ChainOk(olds, count, b, left, repr, head, chain)
    ensures ChainOk(olds, count, b, left + {i}, repr + {node}, head, chain)
  {
    hide StoredHash, Bucket;
  }

  lemma RestFiled(olds: seq<Stored>, count: nat, b: nat, left: set<nat>, repr: set<Node>, chain: seq<Node>, k: nat, rest: seq<Node>)
    requires 0 < count && Filed(olds, count, b, left, repr, chain) && Descending(chain)
    requires k < |chain| && rest == chain[..k] + chain[k + 1..]
    ensures Filed(olds, count, b, left - {chain[k].peer}, repr, rest) && Descending(rest)
  {
    hide StoredHash, Bucket;
  }

  // Different chains share no record.
  lemma OtherFiled(olds: seq<Stored>, count: nat, b: nat, c: nat, left: set<nat>, repr: set<Node>, chain: seq<Node>, other: seq<Node>, k: nat)
    requires 0 < count && b != c && k < |chain|
    requires Filed(olds, count, b, left, repr, chain) && Filed(olds, count, c, left, repr, other)
    ensures Filed(olds, count, c, left - {chain[k].peer}, repr, other)
    ensures forall j :: 0 <= j < |chain| ==> chain[j] !in other
  {
    hide StoredHash, Bucket;
  }

  class Index {
    const olds: seq<Stored>
    const buckets: array<Node?>
    ghost var chains: seq<seq<Node>>
    ghost var left: set<nat>
    ghost var repr: set<Node>

    ghost predicate InRepr()
      reads this
    {
      forall b, k :: 0 <= b < |chains| && 0 <= k < |chains[b]| ==> chains[b][k] in repr
    }

    ghost predicate ChainsOk()
      requires 0 < buckets.Length == |chains| && InRepr()
      reads this, buckets, repr
    {
      forall b :: 0 <= b < |chains| ==> ChainOk(olds, buckets.Length, b, left, repr, buckets[b], chains[b])
    }

    // Every unused record is in the chain of its hash.
    ghost predicate AllFiled()
      requires 0 < buckets.Length == |chains|
      reads this
    {
      forall i :: i in left ==> i < |olds| && i in Numbers(chains[Bucket(StoredHash(olds[i]), buckets.Length)])
    }

    ghost predicate Valid()
      reads this, buckets, repr
    {
      0 < buckets.Length == |chains| && InRepr() && ChainsOk() && AllFiled()
    }

    // An empty index with its table of chains.
    constructor (olds: seq<Stored>)
      ensures Valid() && fresh(buckets) && fresh(repr) && this.olds == olds && left == {} && repr == {}
      ensures buckets.Length == if |olds| == 0 then 1 else |olds| * 2 + 1
    {
      this.olds := olds;
      var count := if |olds| == 0 then 1 else |olds| * 2 + 1;
      buckets := new Node?[count](_ => null);
      chains := seq(count, _ => []);
      left, repr := {}, {};
    }

    // Puts the next old record in front of its chain.
    method Push(i: nat)
      requires Valid() && i < |olds| && forall j :: j in left ==> j < i
      modifies this, buckets
      ensures Valid() && fresh(repr - old(repr)) && left == old(left) + {i}
    {
      hide StoredHash, Bucket, Linked, Descending, Filed, Numbers;
      var b := Bucket(StoredHash(olds[i]), buckets.Length);
      var node := new Node(i, buckets[b]);
      var chain := chains[b];
      PushChain(olds, buckets.Length, b, left, repr, node, chain);
      forall c | 0 <= c < |chains|
        ensures ChainOk(olds, buckets.Length, c, left + {i}, repr + {node}, buckets[c], chains[c])
      {
        GrowChain(olds, buckets.Length, c, left, repr, buckets[c], chains[c], i, node);
      }
      hide ChainOk;
      buckets[b] := node;
      chains := chains[b := [node] + chain];
      left := left + {i};
      repr := repr + {node};
    }

    // Every old record, in order, on an index of its own; nothing of a shared area that is
    // not recognised by its magic number and version.
    static method Create(olds: seq<Stored>, recognised: bool) returns (index: Index)
      ensures index.Valid() && fresh(index) && fresh(index.buckets) && fresh(index.repr)
      ensures index.olds == olds && forall i: nat :: i in index.left <==> recognised && i < |olds|
    {
      hide StoredHash, Bucket, ChainOk;
      index := new Index(olds);
      if !recognised {
        return;
      }
      var i := 0;
      while i < |olds|
        invariant i <= |olds| && index.Valid() && index.olds == olds
        invariant fresh(index) && fresh(index.buckets) && fresh(index.repr)
        invariant forall j: nat :: j in index.left <==> j < i
      {
        index.Push(i);
        i := i + 1;
      }
    }

    // The single store that takes a record out of its chain.
    method Splice(b: nat, ghost k: nat, previous: Node?, node: Node, ghost touched: set<Node>)
      requires 0 < buckets.Length == |chains| && b < buckets.Length && k < |chains[b]| && node == chains[b][k]
      requires Linked(buckets[b], chains[b]) && Descending(chains[b])
      requires previous == if k == 0 then null else chains[b][k - 1]
      requires touched == if k == 0 then {} else {chains[b][k - 1]}
      modifies buckets, touched
      ensures Linked(buckets[b], chains[b][..k] + chains[b][k + 1..])
      ensures forall c :: 0 <= c < buckets.Length && c != b ==> buckets[c] == old(buckets[c])
    {
      ghost var chain := chains[b];
      ghost var rest := chain[..k] + chain[k + 1..];
      assert forall j :: 0 <= j < |chain| && j + 1 != k ==> chain[j] != previous;
      hide Descending;
      if previous == null {
        buckets[b] := node.next;
      } else {
        previous.next := node.next;
      }
      forall j | 0 <= j < |rest|
        ensures rest[j].next == Nth(rest, j + 1)
      {
        assert rest[j] == if j < k then chain[j] else chain[j + 1];
      }
    }

    // Takes one record out of its chain; no other chain is touched.
    method Unlink(b: nat, ghost k: nat, previous: Node?, node: Node)
      requires Valid() && b < buckets.Length && k < |chains[b]| && node == chains[b][k]
      requires previous == if k == 0 then null else chains[b][k - 1]
      modifies this`chains, this`left, buckets, repr
      ensures Valid() && left == old(left) - {node.peer}
    {
      hide StoredHash, Bucket, Filed, Descending, Numbers;
      ghost var chain := chains[b];
      ghost var rest := chain[..k] + chain[k + 1..];
      assert ChainOk(olds, buckets.Length, b, left, repr, buckets[b], chain);
      RestFiled(olds, buckets.Length, b, left, repr, chain, k, rest);
      forall c | 0 <= c < |chains| && c != b
        ensures previous !in chains[c] && ChainOk(olds, buckets.Length, c, left - {node.peer}, repr, buckets[c], chains[c])
      {
        assert ChainOk(olds, buckets.Length, c, left, repr, buckets[c], chains[c]);
        OtherFiled(olds, buckets.Length, b, c, left, repr, chain, chains[c], k);
      }
      StillFiled(b, k, rest);
      Splice(b, k, previous, node, if k == 0 then {} else {chain[k - 1]});
      hide Linked;
      chains := chains[b := rest];
      left := left - {node.peer};
    }

    lemma StillFiled(b: nat, k: nat, rest: seq<Node>)
      requires 0 < buckets.Length == |chains| && AllFiled() && b < |chains| && k < |chains[b]|
      requires rest == chains[b][..k] + chains[b][k + 1..]
      ensures forall i :: i in left && i != chains[b][k].peer ==> i < |olds| && i in Numbers(chains[b := rest][Bucket(StoredHash(olds[i]), buckets.Length)])
    {
      hide StoredHash, Bucket;
      forall i | i in left && i != chains[b][k].peer
        ensures i < |olds| && i in Numbers(chains[b := rest][Bucket(StoredHash(olds[i]), buckets.Length)])
      {
        if Bucket(StoredHash(olds[i]), buckets.Length) == b {
          var j :| 0 <= j < |chains[b]| && chains[b][j].peer == i;
          if j < k {
            assert Numbers(rest)[j] == i;
          } else {
            assert Numbers(rest)[j - 1] == i;
          }
        }
      }
    }

    // The first equal record of the chain is the one naive matching would use.
    lemma FirstIsLatest(p: Peer, b: nat, k: nat)
      requires Valid() && b == Bucket(PeerHash(p), buckets.Length) && k <= |chains[b]|
      requires forall j :: 0 <= j < k ==> !Equal(olds[chains[b][j].peer], p)
      requires k < |chains[b]| ==> Equal(olds[chains[b][k].peer], p)
      ensures Latest(olds, left, p, |olds|) == if k < |chains[b]| then Some(chains[b][k].peer) else None
    {
      hide StoredHash, PeerHash, Bucket, Equal, Latest, Linked;
      assert ChainOk(olds, buckets.Length, b, left, repr, buckets[b], chains[b]);
      forall i | i in left && i < |olds| && Equal(olds[i], p)
        ensures k < |chains[b]| && i <= chains[b][k].peer
      {
        EqualHashEqually(olds[i], p, buckets.Length);
        var j :| 0 <= j < |chains[b]| && chains[b][j].peer == i;
      }
    }

    lemma TableFacts()
      requires Valid()
      ensures 0 < buckets.Length == |chains|
    {
    }

    lemma NodeFacts(b: nat, k: nat)
      requires Valid() && b < buckets.Length && k < |chains[b]|
      ensures chains[b][k].next == Nth(chains[b], k + 1) && chains[b][k].peer < |olds|
    {
      hide StoredHash, Bucket, Descending;
      assert ChainOk(olds, buckets.Length, b, left, repr, buckets[b], chains[b]);
    }

    lemma HeadFacts(b: nat)
      requires Valid() && b < buckets.Length
      ensures buckets[b] == Nth(chains[b], 0)
      ensures forall k :: 0 <= k < |chains[b]| ==> chains[b][k].peer < |olds|
    {
      hide StoredHash, Bucket, Descending;
      assert ChainOk(olds, buckets.Length, b, left, repr, buckets[b], chains[b]);
    }

    // The first equal record of a chain and the one before it.
    method Find(b: nat, p: Peer) returns (previous: Node?, node: Node?, ghost k: nat)
      requires Valid() && b < buckets.Length
      ensures k <= |chains[b]| && node == Nth(chains[b], k)
      ensures previous == if k == 0 then null else chains[b][k - 1]
      ensures forall j :: 0 <= j < |chains[b]| ==> chains[b][j].peer < |olds|
      ensures forall j :: 0 <= j < k ==> !Equal(olds[chains[b][j].peer], p)
      ensures node != null ==> Equal(olds[node.peer], p)
    {
      hide Index.Valid, Equal;
      TableFacts();
      HeadFacts(b);
      previous, node, k := null, buckets[b], 0;
      while node != null
        invariant k <= |chains[b]| && node == Nth(chains[b], k)
        invariant previous == if k == 0 then null else chains[b][k - 1]
        invariant forall j :: 0 <= j < k ==> !Equal(olds[chains[b][j].peer], p)
        decreases |chains[b]| - k
      {
        if Equal(olds[node.peer], p) {
          return;
        }
        NodeFacts(b, k);
        previous := node;
        node := node.next;
        k := k + 1;
      }
    }

    // Consumes the matching record, or reports that none is left.
    method Take(p: Peer) returns (r: Option<nat>)
      requires Valid()
      modifies this`chains, this`left, buckets, repr
      ensures Valid() && r == Latest(olds, old(left), p, |olds|) && left == Used(old(left), r)
    {
      hide Index.Valid, Equal, Latest, StoredHash, PeerHash, Bucket;
      TableFacts();
      var b := Bucket(PeerHash(p), buckets.Length);
      var previous, node, k := Find(b, p);
      FirstIsLatest(p, b, k);
      if node == null {
        return None;
      }
      Unlink(b, k, previous, node);
      return Some(node.peer);
    }
  }
}
