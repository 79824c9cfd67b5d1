/** What a coordinator announces, and when it is a topology (smart.go:214-278, coordinator.proto). */
module Discovery {
  import opened Wrappers
  import opened Endpoints

  datatype Peer = Peer(target: Target, role: Role, partitions: seq<nat>)
  datatype RoutingInfo = RoutingInfo(maxShards: nat, peers: seq<Peer>)
  datatype Discovered = Discovered(shards: ShardCount, peers: seq<Peer>)

  datatype Failure =
    | DataLoss | Unavailable | StreamBroken | Cancelled | FactoryFailed | NilConnection | Conflict | NoRoutes

  predicate PeerOk(p: Peer, shards: nat) {
    && p.target != ""
    && (p.role == MASTER || p.role == BACKUP)
    && forall i :: 0 <= i < |p.partitions| ==> p.partitions[i] < shards
  }

  /** All messages agree on one positive shard count. */
  predicate CountsAgree(stream: seq<RoutingInfo>) {
    forall i :: 0 <= i < |stream| ==> stream[i].maxShards != 0 && stream[i].maxShards == stream[0].maxShards
  }

  function AllPeers(stream: seq<RoutingInfo>): seq<Peer> {
    if stream == [] then [] else AllPeers(stream[..|stream| - 1]) + stream[|stream| - 1].peers
  }

  predicate StreamOk(stream: seq<RoutingInfo>) {
    && CountsAgree(stream) && AllPeers(stream) != []
    && forall i :: 0 <= i < |AllPeers(stream)| ==> PeerOk(AllPeers(stream)[i], stream[0].maxShards)
  }

  /** Read the announcement. `broken` says that the stream ended with an error. It is accepted exactly
      when it is complete and well-formed, and then nothing of it is lost. */
  method Consume(stream: seq<RoutingInfo>, broken: bool) returns (r: Result<Discovered, Failure>)
    ensures r.Ok? <==> !broken && StreamOk(stream)
    ensures r.Ok? ==> r.value == Discovered(stream[0].maxShards, AllPeers(stream))
    ensures r.Err? ==> r.error == if !CountsAgree(stream) then DataLoss else if broken then StreamBroken
                                  else if AllPeers(stream) == [] then Unavailable else DataLoss
  {
    var shards: nat, peers: seq<Peer> := 0, [];
    for i := 0 to |stream|
      invariant CountsAgree(stream[..i]) && peers == AllPeers(stream[..i])
      invariant shards == if i == 0 then 0 else stream[0].maxShards
    {
      if stream[i].maxShards == 0 || (shards != 0 && shards != stream[i].maxShards) {
        return Err(DataLoss);
      }
      shards := stream[i].maxShards;
      peers := peers + stream[i].peers;
      assert stream[..i + 1][..i] == stream[..i];
    }
    assert stream[..|stream|] == stream;
    if broken {
      return Err(StreamBroken);
    }
    if shards == 0 || peers == [] {
      return Err(Unavailable);
    }
    for i := 0 to |peers|
      invariant forall k :: 0 <= k < i ==> PeerOk(peers[k], shards)
    {
      var p := peers[i];
      if p.target == "" || (p.role != MASTER && p.role != BACKUP) {
        return Err(DataLoss);
      }
      for j := 0 to |p.partitions|
        invariant forall k :: 0 <= k < j ==> p.partitions[k] < shards
      {
        if p.partitions[j] >= shards {
          return Err(DataLoss);
        }
      }
    }
    return Ok(Discovered(shards, peers));
  }

  /** One answer of a coordinator: what its stream delivered, and whether it broke off. */
  datatype Announcement = Announcement(target: Target, stream: seq<RoutingInfo>, broken: bool)

  /** The coordinators; `heard` records every answer in order. */
  class Coordinators {
    var heard: seq<Announcement>

    method Listen(target: Target) returns (a: Announcement)
      modifies this
      ensures a.target == target && heard == old(heard) + [a]
    {
      var stream: seq<RoutingInfo>, broken: bool := *, *;
      a := Announcement(target, stream, broken);
      heard := heard + [a];
    }
  }

  predicate Sound(a: Announcement) {
    !a.broken && StreamOk(a.stream)
  }

  /** The topology that a sound answer announces. */
  function Told(a: Announcement): Discovered
    requires Sound(a)
  {
    Discovered(a.stream[0].maxShards, AllPeers(a.stream))
  }

  /** An answer that becomes the snapshot when nothing else goes wrong. */
  predicate Publishable(a: Announcement) {
    Sound(a) && Functional(Relation(Told(a).peers)) && Relation(Told(a).peers) != {}
  }

  // ---- the announced relation between (shard, role) and target

  type Claim = (RouteKey, Target)

  function KeyAt(p: Peer, i: nat): RouteKey
    requires i < |p.partitions|
  {
    RouteKey(p.partitions[i], p.role)
  }

  /** The claims of the first `n` partitions of one peer. */
  function PeerClaims(p: Peer, n: nat): set<Claim>
    requires n <= |p.partitions|
  {
    set i | 0 <= i < n :: (KeyAt(p, i), p.target)
  }

  function Relation(peers: seq<Peer>): set<Claim> {
    if peers == [] then {}
    else var p := peers[|peers| - 1]; Relation(peers[..|peers| - 1]) + PeerClaims(p, |p.partitions|)
  }

  function Names(peers: seq<Peer>): set<Target> {
    set i | 0 <= i < |peers| :: peers[i].target
  }

  /** No (shard, role) is claimed by two targets. */
  predicate Functional(rel: set<Claim>) {
    forall c, d :: c in rel && d in rel && c.0 == d.0 ==> c.1 == d.1
  }

  /** The relation does not depend on the order, or on the repetition, of the peers. */
  lemma {:induction false} RelationMember(peers: seq<Peer>, c: Claim)
    ensures c in Relation(peers) <==> exists i :: 0 <= i < |peers| && c in PeerClaims(peers[i], |peers[i].partitions|)
  {
    if peers != [] {
      var front := peers[..|peers| - 1];
      RelationMember(front, c);
      assert forall i :: 0 <= i < |front| ==> front[i] == peers[i];
    }
  }

  lemma OrderIrrelevant(peers: seq<Peer>, others: seq<Peer>)
    requires forall p :: p in peers <==> p in others
    ensures Relation(peers) == Relation(others) && Names(peers) == Names(others)
  {
    forall c
      ensures c in Relation(peers) <==> c in Relation(others)
    {
      RelationMember(peers, c);
      RelationMember(others, c);
      assert forall i :: 0 <= i < |peers| ==> peers[i] in others;
      assert forall i :: 0 <= i < |others| ==> others[i] in peers;
    }
    assert forall i :: 0 <= i < |peers| ==> peers[i] in others;
    assert forall i :: 0 <= i < |others| ==> others[i] in peers;
  }

  /** All routed shards are below the announced count. */
  lemma ShardsBelowCount(d: Discovered, c: Claim)
    requires forall i :: 0 <= i < |d.peers| ==> PeerOk(d.peers[i], d.shards)
    requires c in Relation(d.peers)
    ensures c.0.shard < d.shards && (c.0.role == MASTER || c.0.role == BACKUP) && c.1 != ""
  {
    RelationMember(d.peers, c);
  }

  /** The snapshot routes exactly the relation, to the endpoints of exactly these targets. */
  predicate Draws(top: Topology, rel: set<Claim>, names: set<Target>) {
    && top.targets.Keys == names
    && (forall c :: c in rel ==> c.1 in top.targets && c.0 in top.routes && top.routes[c.0] == top.targets[c.1])
    && (forall k :: k in top.routes ==> exists c :: c in rel && c.0 == k)
  }

  /** A snapshot with distinct endpoints for distinct targets can only draw a functional relation. */
  lemma DrawnIsFunctional(top: Topology, rel: set<Claim>, names: set<Target>)
    requires Draws(top, rel, names) && Injective(top.targets)
    ensures Functional(rel)
  {
  }

  /** So the routes, read as targets, are the relation. */
  lemma DrawnRoutes(top: Topology, rel: set<Claim>, names: set<Target>, k: RouteKey, t: Target)
    requires Draws(top, rel, names) && Injective(top.targets)
    ensures (k, t) in rel <==> k in top.routes && t in top.targets && top.routes[k] == top.targets[t]
  {
    if k in top.routes && t in top.targets && top.routes[k] == top.targets[t] {
      var c :| c in rel && c.0 == k;
      assert c == (k, t);
    }
  }

  // ---- the same, over the messages of the stream

  /** Some message announces this target for this shard and role. */
  predicate Claimed(stream: seq<RoutingInfo>, key: RouteKey, target: Target) {
    exists i, k :: 0 <= i < |stream| && 0 <= k < |stream[i].peers| && ClaimedBy(stream[i].peers[k], key, target)
  }

  predicate ClaimedBy(p: Peer, key: RouteKey, target: Target) {
    p.target == target && p.role == key.role && key.shard in p.partitions
  }

  /** Some message names this target. */
  predicate Named(stream: seq<RoutingInfo>, target: Target) {
    exists i, k :: 0 <= i < |stream| && 0 <= k < |stream[i].peers| && stream[i].peers[k].target == target
  }

  /** One positive shard count in all messages, some peer, and no peer without a target, with another role than
      master (1) or backup (2), or with a shard that is not below the count. */
  predicate Complete(stream: seq<RoutingInfo>) {
    && (forall i :: 0 <= i < |stream| ==> stream[i].maxShards == stream[0].maxShards > 0)
    && (exists i :: 0 <= i < |stream| && stream[i].peers != [])
    && forall i, k :: 0 <= i < |stream| && 0 <= k < |stream[i].peers| ==>
        Acceptable(stream[i].peers[k], stream[0].maxShards)
  }

  predicate Acceptable(p: Peer, shards: nat) {
    |p.target| > 0 && 1 <= p.role <= 2 && forall shard :: shard in p.partitions ==> shard < shards
  }

  /** The snapshot routes what the messages announce, all of it and nothing else. */
  ghost predicate Mirrors(top: Topology, stream: seq<RoutingInfo>) {
    && Injective(top.targets)
    && (forall i :: 0 <= i < |stream| ==> top.shards == stream[i].maxShards)
    && (forall t :: t in top.targets <==> Named(stream, t))
    && (forall key, t :: Claimed(stream, key, t) <==>
          key in top.routes && t in top.targets && top.routes[key] == top.targets[t])
    && (forall key :: key in top.routes ==> top.routes[key] in top.targets.Values)
  }

  /** No peer of any message is lost, and none is made up. */
  lemma {:induction false} PeerMember(stream: seq<RoutingInfo>, p: Peer)
    ensures p in AllPeers(stream) <==> exists i :: 0 <= i < |stream| && p in stream[i].peers
  {
    if stream != [] {
      var front := stream[..|stream| - 1];
      PeerMember(front, p);
      assert forall i :: 0 <= i < |front| ==> front[i] == stream[i];
      assert stream == front + [stream[|stream| - 1]];
    }
  }

  lemma SomePeer(stream: seq<RoutingInfo>)
    ensures AllPeers(stream) != [] <==> exists i :: 0 <= i < |stream| && stream[i].peers != []
  {
    hide AllPeers;
    if AllPeers(stream) != [] {
      PeerMember(stream, AllPeers(stream)[0]);
    }
    if i :| 0 <= i < |stream| && stream[i].peers != [] {
      PeerMember(stream, stream[i].peers[0]);
    }
  }

  lemma PeersOk(stream: seq<RoutingInfo>, shards: nat)
    ensures (forall i :: 0 <= i < |AllPeers(stream)| ==> PeerOk(AllPeers(stream)[i], shards)) <==>
            forall i, k :: 0 <= i < |stream| && 0 <= k < |stream[i].peers| ==> Acceptable(stream[i].peers[k], shards)
  {
    hide AllPeers, PeerOk, Acceptable;
    var peers := AllPeers(stream);
    if forall i, k :: 0 <= i < |stream| && 0 <= k < |stream[i].peers| ==> Acceptable(stream[i].peers[k], shards) {
      forall n | 0 <= n < |peers|
        ensures PeerOk(peers[n], shards)
      {
        PeerMember(stream, peers[n]);
        var i :| 0 <= i < |stream| && peers[n] in stream[i].peers;
        var k :| 0 <= k < |stream[i].peers| && stream[i].peers[k] == peers[n];
        OneOk(peers[n], shards);
      }
    }
    if forall i :: 0 <= i < |peers| ==> PeerOk(peers[i], shards) {
      forall i, k | 0 <= i < |stream| && 0 <= k < |stream[i].peers|
        ensures Acceptable(stream[i].peers[k], shards)
      {
        PeerMember(stream, stream[i].peers[k]);
        OneOk(stream[i].peers[k], shards);
      }
    }
  }

  lemma OneOk(p: Peer, shards: nat)
    ensures PeerOk(p, shards) <==> Acceptable(p, shards)
  {
    assert forall i :: 0 <= i < |p.partitions| ==> p.partitions[i] in p.partitions;
    assert p.target == "" <==> |p.target| == 0;
  }

  /** An answer is accepted exactly when it is complete. */
  lemma SoundExactly(a: Announcement)
    ensures Sound(a) <==> !a.broken && Complete(a.stream)
  {
    SomePeer(a.stream);
    if a.stream != [] {
      PeersOk(a.stream, a.stream[0].maxShards);
    }
    hide AllPeers, PeerOk, Acceptable;
  }

  lemma ClaimOfPeer(p: Peer, key: RouteKey, target: Target)
    ensures (key, target) in PeerClaims(p, |p.partitions|) <==> ClaimedBy(p, key, target)
  {
    if ClaimedBy(p, key, target) {
      var i :| 0 <= i < |p.partitions| && p.partitions[i] == key.shard;
      assert KeyAt(p, i) == key;
    }
  }

  /** The announced relation is what the messages claim. */
  lemma RelationOfStream(stream: seq<RoutingInfo>, key: RouteKey, target: Target)
    ensures (key, target) in Relation(AllPeers(stream)) <==> Claimed(stream, key, target)
  {
    hide AllPeers, Relation, PeerClaims, ClaimedBy;
    var peers := AllPeers(stream);
    RelationMember(peers, (key, target));
    if (key, target) in Relation(peers) {
      var n :| 0 <= n < |peers| && (key, target) in PeerClaims(peers[n], |peers[n].partitions|);
      ClaimOfPeer(peers[n], key, target);
      PeerMember(stream, peers[n]);
    }
    if Claimed(stream, key, target) {
      var i, k :| 0 <= i < |stream| && 0 <= k < |stream[i].peers| && ClaimedBy(stream[i].peers[k], key, target);
      ClaimOfPeer(stream[i].peers[k], key, target);
      PeerMember(stream, stream[i].peers[k]);
    }
  }

  lemma NamesOfStream(stream: seq<RoutingInfo>, t: Target)
    ensures t in Names(AllPeers(stream)) <==> Named(stream, t)
  {
    hide AllPeers;
    var peers := AllPeers(stream);
    if t in Names(peers) {
      var n :| 0 <= n < |peers| && peers[n].target == t;
      PeerMember(stream, peers[n]);
    }
    if Named(stream, t) {
      var i, k :| 0 <= i < |stream| && 0 <= k < |stream[i].peers| && stream[i].peers[k].target == t;
      PeerMember(stream, stream[i].peers[k]);
    }
  }

  /** A complete answer can be published exactly when it claims something, and no shard and role for two
      targets. */
  lemma PublishableExactly(a: Announcement)
    ensures Publishable(a) <==>
            && !a.broken && Complete(a.stream)
            && (exists key, t :: Claimed(a.stream, key, t))
            && (forall key, t, u :: Claimed(a.stream, key, t) && Claimed(a.stream, key, u) ==> t == u)
  {
    SoundExactly(a);
    forall key, t
      ensures (key, t) in Relation(AllPeers(a.stream)) <==> Claimed(a.stream, key, t)
    {
      RelationOfStream(a.stream, key, t);
    }
    hide Sound, Complete, AllPeers, Relation, Claimed;
    if Publishable(a) {
      var c :| c in Relation(AllPeers(a.stream));
      assert Claimed(a.stream, c.0, c.1);
      var rel := Relation(AllPeers(a.stream));
      assert forall key, t, u :: (key, t) in rel && (key, u) in rel ==> t == u;
    }
  }

  /** A snapshot that draws a sound answer mirrors its messages. */
  lemma DrawnMirrors(top: Topology, a: Announcement)
    requires Sound(a) && top.shards == Told(a).shards && Injective(top.targets)
    requires Draws(top, Relation(Told(a).peers), Names(Told(a).peers))
    ensures Mirrors(top, a.stream)
  {
    SoundExactly(a);
    var rel, names := Relation(Told(a).peers), Names(Told(a).peers);
    forall key, t
      ensures Claimed(a.stream, key, t) <==>
              key in top.routes && t in top.targets && top.routes[key] == top.targets[t]
    {
      RelationOfStream(a.stream, key, t);
      DrawnRoutes(top, rel, names, key, t);
    }
    forall t
      ensures t in top.targets <==> Named(a.stream, t)
    {
      NamesOfStream(a.stream, t);
    }
    forall key | key in top.routes
      ensures top.routes[key] in top.targets.Values
    {
      var c :| c in rel && c.0 == key;
    }
    hide AllPeers, Relation, Names, Claimed, Named, Injective, Draws;
  }
}
