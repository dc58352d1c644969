/** Packets between chains: output queues of one chain are relayed, with proofs, into input queues of another. */
module Ibc {
  import opened ByteOrder
  import opened Queues

  datatype Actor = Actor(chain: Bytes, app: Bytes, address: Bytes)
  datatype Packet = Packet(dest: Bytes, sequence: nat, permissions: seq<Actor>, tx: Bytes)

  type Encoding = Packet -> Bytes

  /** Packet bytes determine the packet and are longer than a counter. */
  ghost predicate GoodEncoding(enc: Encoding) {
    && (forall p, q :: enc(p) == enc(q) ==> p == q)
    && (forall p :: |enc(p)| > 8)
  }

  /** Whether a proof shows that a key has a value in the state behind a root. */
  type Prover = (Bytes, Bytes, Bytes, Store) -> bool

  ghost predicate Sound(prove: Prover) {
    forall proof, key, value, root :: prove(proof, key, value, root) ==> key in root && root[key] == value
  }

  // ---------------------------------------------------------------------------------------------
  // Key spaces

  /** The key of an application's own space. */
  function Space(app: Bytes, key: Bytes): Bytes {
    app + [0] + key
  }

  ghost predicate NulFree(id: Bytes) {
    forall i :: 0 <= i < |id| ==> id[i] != 0
  }

  lemma SpaceInjective(a: Bytes, b: Bytes, k: Bytes, l: Bytes)
    requires NulFree(a) && NulFree(b) && Space(a, k) == Space(b, l)
    ensures a == b && k == l
  {
    var s := Space(a, k);
    assert s[|a|] == 0 && s[|b|] == 0;
    assert forall i :: 0 <= i < |a| ==> s[i] == a[i];
    assert forall i :: 0 <= i < |b| ==> s[i] == b[i];
    assert |a| == |b|;
    assert s[..|a|] == a && s[..|b|] == b;
    assert s[|a| + 1..] == k && s[|b| + 1..] == l;
  }

  const IBC: Bytes := [105, 98, 99]
  const IN: Bytes := [105]
  const OUT: Bytes := [111]

  datatype Dir = Input | Output

  function DirName(d: Dir): Bytes {
    if d == Input then IN else OUT
  }

  /** The prefix of the queue from or to chain `id`. */
  function QueuePrefix(d: Dir, id: Bytes): Bytes {
    Space(IBC, Space(id, Space(DirName(d), [])))
  }

  lemma SpaceAppend(app: Bytes, k: Bytes, l: Bytes)
    ensures Space(app, k) + l == Space(app, k + l)
  {
  }

  lemma QueueKey(d: Dir, id: Bytes, key: Bytes)
    ensures QueuePrefix(d, id) + key == Space(IBC, Space(id, Space(DirName(d), key)))
  {
    SpaceAppend(IBC, Space(id, Space(DirName(d), [])), key);
    SpaceAppend(id, Space(DirName(d), []), key);
    SpaceAppend(DirName(d), [], key);
    assert [] + key == key;
  }

  /** Different queues share no key. */
  lemma QueuesDisjoint(d: Dir, id: Bytes, e: Dir, other: Bytes, k: Bytes, l: Bytes)
    requires NulFree(id) && NulFree(other) && (d != e || id != other)
    ensures QueuePrefix(d, id) + k != QueuePrefix(e, other) + l
  {
    if QueuePrefix(d, id) + k == QueuePrefix(e, other) + l {
      QueueKey(d, id, k);
      QueueKey(e, other, l);
      SpaceInjective(IBC, IBC, Space(id, Space(DirName(d), k)), Space(other, Space(DirName(e), l)));
      SpaceInjective(id, other, Space(DirName(d), k), Space(DirName(e), l));
      SpaceInjective(DirName(d), DirName(e), k, l);
    }
  }

  // ---------------------------------------------------------------------------------------------
  // One chain

  /** `headers` maps a peer and a height to the state behind the application hash in that header. */
  datatype Chain = Chain(store: Store, history: seq<Store>, registered: set<Bytes>, headers: map<(Bytes, int), Store>)

  datatype CreateTx = CreateTx(dest: Bytes, permissions: seq<Actor>, mod: Option<Bytes>, tx: Bytes)
  datatype PostTx = PostTx(from: Bytes, height: nat, proof: Bytes, key: Bytes, packet: Packet)

  const ALLOW_IBC: Bytes := [0x42, 0xbe, 0xef, 0x1]

  function AllowIbc(mod: Bytes): Actor {
    Actor([], mod, ALLOW_IBC)
  }

  function WithChain(ps: seq<Actor>, id: Bytes): (r: seq<Actor>)
    ensures |r| == |ps| && forall i :: 0 <= i < |r| ==> r[i] == ps[i].(chain := id)
  {
    seq(|ps|, i requires 0 <= i < |ps| => ps[i].(chain := id))
  }

  predicate AllHaveChain(ps: seq<Actor>, id: Bytes) {
    forall i :: 0 <= i < |ps| ==> ps[i].chain == id
  }

  predicate MayCreate(c: Chain, held: set<Actor>, t: CreateTx) {
    && t.dest != [] && t.dest in c.registered && t.mod.Some? && AllowIbc(t.mod.value) in held
    && forall i :: 0 <= i < |t.permissions| ==> t.permissions[i] in held
  }

  /** The packet that a chain puts into its output queue. */
  function NewPacket(id: Bytes, c: Chain, t: CreateTx): Packet {
    Packet(t.dest, TailOf(c.store, QueuePrefix(Output, t.dest)), WithChain(t.permissions, id), t.tx)
  }

  function Created(enc: Encoding, id: Bytes, c: Chain, t: CreateTx): Chain {
    c.(store := PushAt(c.store, QueuePrefix(Output, t.dest), enc(NewPacket(id, c, t))))
  }

  /** The tests of a posted packet, in the order of the code. The key is not compared with the queue's. */
  predicate MayPost(enc: Encoding, prove: Prover, id: Bytes, c: Chain, t: PostTx) {
    && t.from in c.registered && t.packet.dest == id && AllHaveChain(t.packet.permissions, t.from)
    && t.packet.sequence == TailOf(c.store, QueuePrefix(Input, t.from))
    && (t.from, t.height + 1) in c.headers
    && prove(t.proof, t.key, enc(t.packet), c.headers[(t.from, t.height + 1)])
  }

  function Posted(enc: Encoding, c: Chain, t: PostTx): Chain {
    c.(store := PushAt(c.store, QueuePrefix(Input, t.from), enc(t.packet)))
  }

  // ---------------------------------------------------------------------------------------------
  // The handler and the middleware, which change the store in place

  class Node {
    const id: Bytes
    const enc: Encoding
    const prove: Prover
    const db: Db
    /** The states committed so far. */
    var history: seq<Store>
    var registered: set<Bytes>
    var headers: map<(Bytes, int), Store>

    constructor (i: Bytes, e: Encoding, p: Prover, d: Db)
      ensures id == i && enc == e && prove == p && db == d
      ensures history == [] && registered == {} && headers == map[]
    {
      id, enc, prove, db := i, e, p, d;
      history, registered, headers := [], {}, map[];
    }

    ghost function AsChain(): Chain
      reads this, db
    {
      Chain(db.data, history, registered, headers)
    }

    /** Enqueues a packet with the next sequence number, or changes nothing. */
    method CreatePacket(held: set<Actor>, t: CreateTx, ghost pushed: seq<Bytes>) returns (ok: bool)
      requires t.dest in registered ==> Loads(db.data, QueuePrefix(Output, t.dest), pushed)
      modifies db
      ensures ok <==> old(MayCreate(AsChain(), held, t))
      ensures AsChain() == old(if MayCreate(AsChain(), held, t) then Created(enc, id, AsChain(), t) else AsChain())
    {
      if t.dest == [] || t.dest !in registered {
        return false;
      }
      if t.mod.None? || AllowIbc(t.mod.value) !in held {
        return false;
      }
      var permissions: seq<Actor> := [];
      for n := 0 to |t.permissions|
        invariant permissions == WithChain(t.permissions[..n], id)
        invariant forall i :: 0 <= i < n ==> t.permissions[i] in held
      {
        if t.permissions[n] !in held {
          return false;
        }
        permissions := permissions + [t.permissions[n].(chain := id)];
      }
      assert t.permissions[..|t.permissions|] == t.permissions;
      var q := new Queue(db, QueuePrefix(Output, t.dest), pushed);
      var packet := Packet(t.dest, q.tail, permissions, t.tx);
      var _ := q.Push(enc(packet));
      return true;
    }

    method PermissionsFrom(ps: seq<Actor>, chain: Bytes) returns (ok: bool)
      ensures ok <==> AllHaveChain(ps, chain)
    {
      for n := 0 to |ps|
        invariant forall i :: 0 <= i < n ==> ps[i].chain == chain
      {
        if ps[n].chain != chain {
          return false;
        }
      }
      return true;
    }

    /** Accepts a packet whose tests pass into the input queue, or changes nothing. */
    method VerifyPost(t: PostTx, ghost pushed: seq<Bytes>) returns (ok: bool)
      requires t.from in registered ==> Loads(db.data, QueuePrefix(Input, t.from), pushed)
      modifies db
      ensures ok <==> old(MayPost(enc, prove, id, AsChain(), t))
      ensures AsChain() == old(if MayPost(enc, prove, id, AsChain(), t) then Posted(enc, AsChain(), t) else AsChain())
    {
      if t.from !in registered {
        return false;
      }
      if t.packet.dest != id {
        return false;
      }
      var stamped := PermissionsFrom(t.packet.permissions, t.from);
      if !stamped {
        return false;
      }
      var q := new Queue(db, QueuePrefix(Input, t.from), pushed);
      if t.packet.sequence < q.tail {
        return false;
      }
      if t.packet.sequence > q.tail {
        return false;
      }
      if (t.from, t.height + 1) !in headers {
        return false;
      }
      var bytes := enc(t.packet);
      if !prove(t.proof, t.key, bytes, headers[(t.from, t.height + 1)]) {
        return false;
      }
      var _ := q.Push(bytes);
      return true;
    }

    /** Stores a header of a peer, which is registered if it was not. */
    method Learn(peer: Bytes, height: int, root: Store)
      modifies this
      ensures AsChain() ==
              var c := old(AsChain());
              c.(registered := c.registered + {peer}, headers := c.headers[(peer, height) := root])
    {
      registered := registered + {peer};
      headers := headers[(peer, height) := root];
    }

    /** Commits the present state. */
    method Commit()
      modifies this
      ensures AsChain() == var c := old(AsChain()); c.(history := c.history + [c.store])
    {
      history := history + [db.data];
    }
  }
}
