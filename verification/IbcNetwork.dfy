/** The chains as objects, and their runs. */
module IbcNetwork {
  import opened ByteOrder
  import opened MachineInts
  import opened Queues
  import opened Ibc
  import opened IbcProtocol

  type Nodes = map<Bytes, Node>

  /** No two nodes share an object. */
  ghost predicate Distinct(nodes: Nodes) {
    forall i, j :: i in nodes && j in nodes && i != j ==> nodes[i] != nodes[j] && nodes[i].db != nodes[j].db
  }

  ghost predicate Alike(enc: Encoding, prove: Prover, nodes: Nodes) {
    forall id :: id in nodes ==> nodes[id].id == id && nodes[id].enc == enc && nodes[id].prove == prove
  }

  ghost function Dbs(nodes: Nodes): set<object> {
    set id | id in nodes :: nodes[id].db
  }

  ghost function Objects(nodes: Nodes): set<object> {
    (set id | id in nodes :: nodes[id]) + Dbs(nodes)
  }

  /** The nodes are in the states of the given chains. */
  ghost predicate Matches(nodes: Nodes, chains: map<Bytes, Chain>)
    reads Objects(nodes)
  {
    nodes.Keys == chains.Keys && forall id :: id in nodes ==> nodes[id].AsChain() == chains[id]
  }

  /** One node changed. */
  lemma MatchesUpdate(nodes: Nodes, chains: map<Bytes, Chain>, id: Bytes, c: Chain)
    requires id in nodes && nodes.Keys == chains.Keys && nodes[id].AsChain() == c
    requires forall j :: j in nodes && j != id ==> nodes[j].AsChain() == chains[j]
    ensures Matches(nodes, chains[id := c])
  {
  }

  /** Any number of chains. The ghost world is that of the transition system. */
  class Network {
    const enc: Encoding
    const prove: Prover
    const nodes: Nodes
    ghost var world: World

    ghost predicate Shape() {
      Distinct(nodes) && Alike(enc, prove, nodes) && GoodEncoding(enc) && Sound(prove)
    }

    ghost predicate Valid()
      reads this, Objects(nodes)
    {
      Shape() && Matches(nodes, world.chains) && Inv(enc, world)
    }

    /** The queue that a node is about to push to is loaded as the log says. */
    lemma QueueLoads(id: Bytes, d: Dir, peer: Bytes)
      requires Valid() && id in nodes && peer in nodes[id].registered
      ensures Loads(nodes[id].db.data, QueuePrefix(d, peer), Encoded(enc, QueueOf(world.log, id, d, peer)))
    {
      assert ChainInv(enc, world, id);
      assert QueueHolds(enc, world.chains[id].store, world.log, id, d, peer);
    }

    method DoCreate(id: Bytes, held: set<Actor>, t: CreateTx, ghost pushed: seq<Bytes>) returns (ok: bool)
      requires Shape() && Matches(nodes, world.chains) && id in nodes
      requires t.dest in nodes[id].registered ==> Loads(nodes[id].db.data, QueuePrefix(Output, t.dest), pushed)
      modifies nodes[id].db
      ensures ok <==> MayCreate(world.chains[id], held, t)
      ensures Matches(nodes, Next(enc, prove, world, Step.Create(id, held, t)).chains)
    {
      ghost var c := world.chains[id];
      ok := nodes[id].CreatePacket(held, t, pushed);
      MatchesUpdate(nodes, world.chains, id, if ok then Created(enc, id, c, t) else c);
    }

    method DoPost(id: Bytes, t: PostTx, ghost pushed: seq<Bytes>) returns (ok: bool)
      requires Shape() && Matches(nodes, world.chains) && id in nodes
      requires t.from in nodes[id].registered ==> Loads(nodes[id].db.data, QueuePrefix(Input, t.from), pushed)
      modifies nodes[id].db
      ensures ok <==> MayPost(enc, prove, id, world.chains[id], t)
      ensures Matches(nodes, Next(enc, prove, world, Step.Post(id, t)).chains)
    {
      ghost var c := world.chains[id];
      ok := nodes[id].VerifyPost(t, pushed);
      MatchesUpdate(nodes, world.chains, id, if ok then Posted(enc, c, t) else c);
    }

    /** A correct header of a peer is stored, and the peer registered if it was not. */
    method DoLearn(id: Bytes, peer: Bytes, height: int)
      requires Shape() && Matches(nodes, world.chains) && id in nodes
      requires peer in nodes && 1 <= height <= |nodes[peer].history|
      modifies nodes[id]
      ensures Matches(nodes, Next(enc, prove, world, Step.Learn(id, peer, height)).chains)
    {
      ghost var c := world.chains[id];
      var root := nodes[peer].history[height - 1];
      nodes[id].Learn(peer, height, root);
      MatchesUpdate(nodes, world.chains, id,
                    c.(registered := c.registered + {peer}, headers := c.headers[(peer, height) := root]));
    }

    method DoOther(id: Bytes, key: Bytes, value: Option<Bytes>)
      requires Shape() && Matches(nodes, world.chains) && id in nodes
      modifies nodes[id].db
      ensures Matches(nodes, Next(enc, prove, world, Step.Other(id, key, value)).chains)
    {
      ghost var c := world.chains[id];
      var db := nodes[id].db;
      db.data := if value.Some? then db.data[key := value.value] else db.data - {key};
      MatchesUpdate(nodes, world.chains, id, c.(store := db.data));
    }

    method DoCommit(id: Bytes)
      requires Shape() && Matches(nodes, world.chains) && id in nodes
      modifies nodes[id]
      ensures Matches(nodes, Next(enc, prove, world, Step.Commit(id)).chains)
    {
      ghost var c := world.chains[id];
      nodes[id].Commit();
      MatchesUpdate(nodes, world.chains, id, c.(history := c.history + [c.store]));
    }

    /** One step of one chain. A step at a chain that there is not has no effect. */
    method Act(s: Step)
      requires Valid() && Fair(enc, world, s)
      modifies Objects(nodes)
      ensures Shape() && world == old(world) && Matches(nodes, Next(enc, prove, world, s).chains)
    {
      if s.at in nodes {
        match s {
          case Create(id, held, t) =>
            if t.dest in nodes[id].registered {
              QueueLoads(id, Output, t.dest);
            }
            var _ := DoCreate(id, held, t, Encoded(enc, QueueOf(world.log, id, Output, t.dest)));
          case Post(id, t) =>
            if t.from in nodes[id].registered {
              QueueLoads(id, Input, t.from);
            }
            var _ := DoPost(id, t, Encoded(enc, QueueOf(world.log, id, Input, t.from)));
          case Learn(id, peer, height) =>
            DoLearn(id, peer, height);
          case Other(id, key, value) =>
            DoOther(id, key, value);
          case Commit(id) =>
            DoCommit(id);
        }
      }
    }

    method TakeStep(s: Step)
      requires Valid() && Fair(enc, world, s)
      modifies this, Objects(nodes)
      ensures Valid() && world == Next(enc, prove, old(world), s)
    {
      NextKeepsInv(enc, prove, world, s);
      Act(s);
      Note(Next(enc, prove, world, s));
    }

    /** Records where the nodes are. */
    ghost method Note(w: World)
      requires Shape() && Matches(nodes, w.chains) && Inv(enc, w)
      modifies this
      ensures Valid() && world == w
    {
      world := w;
    }

    /** Any fair run of the nodes goes where the transition system goes. */
    method RunSteps(steps: seq<Step>)
      requires Valid() && FairRun(enc, prove, world, steps)
      modifies this, Objects(nodes)
      ensures Valid() && world == Run(enc, prove, old(world), steps)
      decreases |steps|
    {
      if steps != [] {
        RunSteps(steps[..|steps| - 1]);
        TakeStep(steps[|steps| - 1]);
      }
    }

    /** The network of the given nodes, which did nothing yet. */
    constructor (e: Encoding, p: Prover, ns: Nodes, ghost w: World)
      requires Distinct(ns) && Alike(e, p, ns) && GoodEncoding(e) && Sound(p)
      requires Init(e, w) && Matches(ns, w.chains)
      ensures enc == e && prove == p && nodes == ns && world == w && Valid()
    {
      enc, prove, nodes, world := e, p, ns, w;
      InitInv(e, w);
    }
  }

  /** The world of chains with the given stores and nothing else. */
  ghost function FreshWorld(stores: map<Bytes, Store>): World {
    World(map id | id in stores :: Chain(stores[id], [], {}, map[]), [])
  }

  /** Proper ids, and stores without queues and without packet bytes. */
  ghost predicate CleanStores(enc: Encoding, stores: map<Bytes, Store>) {
    forall id :: id in stores ==>
      && NulFree(id) && (forall k :: k in stores[id] ==> !IsQueueKey(k))
      && (forall k, p :: k in stores[id] ==> stores[id][k] != enc(p))
  }

  lemma FreshInit(enc: Encoding, stores: map<Bytes, Store>)
    requires CleanStores(enc, stores)
    ensures Init(enc, FreshWorld(stores))
  {
  }

  method NewNode(id: Bytes, enc: Encoding, prove: Prover, store: Store) returns (n: Node)
    ensures fresh(n) && fresh(n.db) && n.id == id && n.enc == enc && n.prove == prove
    ensures n.AsChain() == Chain(store, [], {}, map[])
  {
    var db := new Db(store);
    n := new Node(id, enc, prove, db);
  }

  lemma OneMore(nodes: Nodes, id: Bytes, n: Node)
    ensures Objects(nodes[id := n]) <= Objects(nodes) + {n, n.db}
  {
  }

  /** A node for every store. */
  method NewNodes(enc: Encoding, prove: Prover, stores: map<Bytes, Store>, ids: set<Bytes>)
    returns (nodes: Nodes, ghost made: set<object>)
    requires ids <= stores.Keys
    ensures nodes.Keys == ids && Distinct(nodes) && Alike(enc, prove, nodes)
    ensures fresh(made) && Objects(nodes) <= made
    ensures forall id :: id in ids ==> nodes[id].AsChain() == Chain(stores[id], [], {}, map[])
    decreases ids
  {
    nodes, made := map[], {};
    if ids != {} {
      var id :| id in ids;
      nodes, made := NewNodes(enc, prove, stores, ids - {id});
      var n := NewNode(id, enc, prove, stores[id]);
      OneMore(nodes, id, n);
      nodes, made := nodes[id := n], made + {n, n.db};
    }
  }

  /** New chains, and any fair run of them: every chain's store ends with the queues that the run logged. */
  method RunNetwork(enc: Encoding, prove: Prover, stores: map<Bytes, Store>, steps: seq<Step>) returns (net: Network)
    requires GoodEncoding(enc) && Sound(prove) && CleanStores(enc, stores)
    requires FairRun(enc, prove, FreshWorld(stores), steps)
    ensures net.Valid() && net.enc == enc && net.world == Run(enc, prove, FreshWorld(stores), steps)
    ensures net.nodes.Keys == stores.Keys
    ensures forall a, b :: a in stores && b in stores ==> NodesAgree(net, a, b)
  {
    FreshInit(enc, stores);
    var nodes, made := NewNodes(enc, prove, stores, stores.Keys);
    net := new Network(enc, prove, nodes, FreshWorld(stores));
    net.RunSteps(steps);
    forall a, b | a in stores && b in stores ensures NodesAgree(net, a, b) {
      Agree(net, a, b);
    }
  }

  /** What `a` stored for `b` is what the log says it sent, what `b` stored from `a` is what it accepted, and the
      second is a prefix of the first, if these are two chains and fewer than 2^64 packets. */
  ghost predicate NodesAgree(net: Network, a: Bytes, b: Bytes)
    reads net, Objects(net.nodes)
  {
    var sent, accepted := SentTo(net.world.log, a, b), AcceptedFrom(net.world.log, b, a);
    && a in net.nodes && Loads(net.nodes[a].db.data, QueuePrefix(Output, b), Encoded(net.enc, sent))
    && b in net.nodes && Loads(net.nodes[b].db.data, QueuePrefix(Input, a), Encoded(net.enc, accepted))
    && (a != b && |sent| < WORD ==> accepted <= sent)
  }

  lemma Agree(net: Network, a: Bytes, b: Bytes)
    requires net.Valid() && a in net.nodes && b in net.nodes
    ensures NodesAgree(net, a, b)
  {
    var w := net.world;
    assert ChainInv(net.enc, w, a) && ChainInv(net.enc, w, b);
    assert QueueHolds(net.enc, w.chains[a].store, w.log, a, Output, b);
    assert QueueHolds(net.enc, w.chains[b].store, w.log, b, Input, a);
    if a != b && |SentTo(w.log, a, b)| < WORD {
      PrefixOfSent(w.log, a, b);
    }
  }
}
