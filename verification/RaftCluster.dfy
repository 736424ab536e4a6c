/**
 * A cluster of any number of Raft nodes and the network between them.  The network is the set of
 * all messages ever sent; delivering one leaves it there, so messages may be delayed, reordered,
 * duplicated and lost.  Nodes do not restart.
 */
module RaftCluster {
  import opened RaftTypes
  import opened RaftStep

  datatype Cluster = Cluster(nodes: map<Id, NodeData>, net: set<Message>)

  datatype Action =
    | Deliver(m: Message)
    | Timeout(id: Id)
    | ProposeAt(id: Id, command: string)
    | Heartbeat(id: Id)

  ghost predicate PeersOk(ids: set<Id>, n: NodeData) {
    && n.id in ids && n.id != NOBODY
    && |n.peers| + 1 == |ids|
    && forall p :: p in n.peers <==> p in ids && p != n.id
  }

  ghost predicate Init(c: Cluster) {
    && c.net == {}
    && forall id :: id in c.nodes ==>
         && c.nodes[id] == NodeData(id, c.nodes[id].peers, Follower, 0, NOBODY, NOBODY, [], [], 0, map[], map[], {})
         && PeersOk(c.nodes.Keys, c.nodes[id])
  }

  function Actor(a: Action): Id {
    match a
    case Deliver(m) => m.to
    case Timeout(id) => id
    case ProposeAt(id, _) => id
    case Heartbeat(id) => id
  }

  ghost predicate Enabled(c: Cluster, a: Action) {
    Actor(a) in c.nodes && (a.Deliver? ==> a.m in c.net)
  }

  ghost function Run1(n: NodeData, a: Action): Effect {
    match a
    case Deliver(m) => OnMessage(n, m)
    case Timeout(_) => OnElectionTimeout(n)
    case ProposeAt(_, command) => Propose(n, command)
    case Heartbeat(_) => Effect(n, Heartbeats(n))
  }

  ghost function Apply(c: Cluster, a: Action): Cluster
    requires Enabled(c, a)
  {
    var e := Run1(c.nodes[Actor(a)], a);
    Cluster(c.nodes[Actor(a) := e.node], c.net + set m | m in e.sent)
  }

  /** A run: states[0] is initial and actions[i] leads from states[i] to states[i + 1]. */
  ghost predicate IsRun(states: seq<Cluster>, actions: seq<Action>) {
    && |states| == |actions| + 1
    && Init(states[0])
    && forall i :: 0 <= i < |actions| ==> Enabled(states[i], actions[i]) && states[i + 1] == Apply(states[i], actions[i])
  }

  /** The action does not hand a candidate a vote that was granted to it in an earlier term. */
  ghost predicate CountsNoStaleVote(c: Cluster, a: Action)
    requires Enabled(c, a)
  {
    (a.Deliver? && a.m.body.VoteResponse? && a.m.body.granted && c.nodes[a.m.to].role == Candidate) ==>
      a.m.term >= c.nodes[a.m.to].currentTerm
  }

  /** A run in which every granted vote arrives while its candidate is still in the vote's term. */
  ghost predicate IsTimelyRun(states: seq<Cluster>, actions: seq<Action>) {
    && IsRun(states, actions)
    && forall i :: 0 <= i < |actions| ==> CountsNoStaleVote(states[i], actions[i])
  }

  ghost function Last(states: seq<Cluster>): Cluster
    requires states != []
  {
    states[|states| - 1]
  }

  lemma RunExtended(states: seq<Cluster>, actions: seq<Action>, a: Action)
    requires IsRun(states, actions) && Enabled(Last(states), a)
    ensures IsRun(states + [Apply(Last(states), a)], actions + [a])
  {
    var states', actions' := states + [Apply(Last(states), a)], actions + [a];
    forall i | 0 <= i < |actions'|
      ensures Enabled(states'[i], actions'[i]) && states'[i + 1] == Apply(states'[i], actions'[i])
    {
      if i < |actions| {
        assert states'[i] == states[i] && states'[i + 1] == states[i + 1] && actions'[i] == actions[i];
      }
    }
  }
}
