/** Connections, endpoints and topology snapshots of the smart backend (smart.go). */
module Endpoints {

  type Target = string
  type Role = int

  const MASTER: Role := 1
  const BACKUP: Role := 2

  /** What the connection factory returns: `usable` says that the channel is not nil, `owned` that
      there is a Close callback. `handle` numbers the factory results, so it names the callback. */
  datatype Connection = Connection(handle: nat, usable: bool, owned: bool)

  class Endpoint {
    const connection: Connection
    var refs: int
    var active: bool
    var closed: bool

    constructor (connection: Connection)
      ensures this.connection == connection
      ensures refs == 0 && !active && !closed
    {
      this.connection := connection;
      refs, active, closed := 0, false, false;
    }
  }

  datatype RouteKey = RouteKey(shard: nat, role: Role)

  /** Discovery refuses a shard count of 0. */
  type ShardCount = n: int | n > 0 witness 1

  datatype Topology = Topology(shards: ShardCount, routes: map<RouteKey, Endpoint>, targets: map<Target, Endpoint>)

  /** Every route names an endpoint of the snapshot's own target table. */
  predicate RoutesInTargets(top: Topology) {
    forall k :: k in top.routes ==> top.routes[k] in top.targets.Values
  }

  predicate Injective(m: map<Target, Endpoint>) {
    forall t, u :: t in m && u in m && m[t] == m[u] ==> t == u
  }

  /** Every entry of `small` is an entry of `big`. */
  predicate Within(small: map<Target, Endpoint>, big: map<Target, Endpoint>) {
    forall t :: t in small ==> t in big && big[t] == small[t]
  }
}
