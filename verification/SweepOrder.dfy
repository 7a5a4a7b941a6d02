/** The heap table iterates its flows in the order that a world's sweeps use. */
module SweepOrder {
  import opened FlowKey
  import opened FlowMachine
  import opened ServerMachine
  import opened FlowTable
  import opened Client

  /** There is only one sorted list of given flows. */
  lemma {:induction false} SortedUnique(flows: map<nat, Flow>, a: seq<nat>, b: seq<nat>)
    requires Sorted(flows, a) && Sorted(flows, b) && forall id :: id in a <==> id in b
    ensures a == b
    decreases |a|
  {
    if a == [] {
      FirstIsMember(b);
    } else {
      assert a[0] in b && b[0] in a;
      FirstIsLeast(flows, a, b[0]);
      FirstIsLeast(flows, b, a[0]);
      assert a[0] == b[0] && a == [a[0]] + a[1..] && b == [b[0]] + b[1..];
      TailMembers(flows, a);
      TailMembers(flows, b);
      SortedUnique(flows, a[1..], b[1..]);
    }
  }

  lemma FirstIsMember(l: seq<nat>)
    ensures l != [] ==> l[0] in l
  {
  }

  lemma FirstIsLeast(flows: map<nat, Flow>, l: seq<nat>, id: nat)
    requires Sorted(flows, l) && id in l
    ensures id == l[0] || Precedes(flows[l[0]], flows[id])
  {
  }

  lemma TailMembers(flows: map<nat, Flow>, l: seq<nat>)
    requires Sorted(flows, l) && l != []
    ensures Sorted(flows, l[1..]) && forall id :: id in l[1..] <==> id in l && id != l[0]
  {
    assert l == [l[0]] + l[1..];
    assert forall i :: 0 < i < |l| ==> Precedes(flows[l[0]], flows[l[i]]);
  }

  /** The nodes of a heap table stand for the flows of a world: same buckets, ids in the order of addition. */
  ghost predicate StandsFor(l: seq<FlowNode>, idOf: map<FlowNode, nat>, w: World) {
    && (forall n :: n in l ==> n in idOf && idOf[n] in w.flows && w.flows[idOf[n]].bucket == Bucket(n.kd))
    && (forall id :: id in w.flows ==> exists n :: n in l && idOf[n] == id)
    && (forall i, j :: 0 <= i < j < |l| ==> idOf[l[i]] < idOf[l[j]])
  }

  ghost function Ids(l: seq<FlowNode>, idOf: map<FlowNode, nat>): (ids: seq<nat>)
    requires forall n :: n in l ==> n in idOf
    ensures |ids| == |l| && forall i :: 0 <= i < |l| ==> ids[i] == idOf[l[i]]
  {
    seq(|l|, i requires 0 <= i < |l| => idOf[l[i]])
  }

  /** pcp_db_foreach_flow visits the flows in the order that the machines' sweeps use. */
  lemma SweepFollowsTable(l: seq<FlowNode>, idOf: map<FlowNode, nat>, w: World)
    requires TableOk(w) && StandsFor(l, idOf, w)
    ensures Ids(ByBucket(l, FLOW_HASH_SIZE), idOf) == w.order
  {
    hide Bucket, Precedes;
    var v := ByBucket(l, FLOW_HASH_SIZE);
    var ids := Ids(v, idOf);
    forall i, j | 0 <= i < j < |ids|
      ensures Precedes(w.flows[ids[i]], w.flows[ids[j]])
    {
      VisitedInOrder(l, idOf, w, i, j);
    }
    forall id
      ensures id in ids <==> id in w.order
    {
      VisitedAll(l, idOf, w, id);
    }
    SortedUnique(w.flows, ids, w.order);
  }

  lemma VisitedInOrder(l: seq<FlowNode>, idOf: map<FlowNode, nat>, w: World, i: nat, j: nat)
    requires TableOk(w) && StandsFor(l, idOf, w) && i < j < |ByBucket(l, FLOW_HASH_SIZE)|
    ensures var v := ByBucket(l, FLOW_HASH_SIZE);
      v[i] in l && v[j] in l && Precedes(w.flows[idOf[v[i]]], w.flows[idOf[v[j]]])
  {
    hide Bucket, ByBucket;
    var v := ByBucket(l, FLOW_HASH_SIZE);
    assert v[i] in v && v[j] in v;
    IterationOrder(l, FLOW_HASH_SIZE, i, j);
  }

  lemma VisitedAll(l: seq<FlowNode>, idOf: map<FlowNode, nat>, w: World, id: nat)
    requires TableOk(w) && StandsFor(l, idOf, w)
    ensures id in Ids(ByBucket(l, FLOW_HASH_SIZE), idOf) <==> id in w.order
  {
    hide Bucket, ByBucket, Precedes;
    var v := ByBucket(l, FLOW_HASH_SIZE);
    if id in w.flows {
      var n :| n in l && idOf[n] == id;
      assert n in v;
      var k :| 0 <= k < |v| && v[k] == n;
      assert Ids(v, idOf)[k] == id;
    }
  }

  // --------------------------------------- what the table's operations keep

  /** An empty table stands for a fresh world. */
  lemma EmptyStands(w: World)
    requires w.flows == map[]
    ensures StandsFor([], map[], w)
  {
  }

  /** Adding a node behind all others, and a flow with the next id, keeps the correspondence. */
  lemma AddStands(l: seq<FlowNode>, idOf: map<FlowNode, nat>, w: World, n: FlowNode, f: Flow)
    requires TableOk(w) && StandsFor(l, idOf, w) && n !in l && f.id == w.nextId && f.bucket == Bucket(n.kd)
    ensures StandsFor(l + [n], idOf[n := f.id], AddFlow(w, f))
  {
    hide Bucket, Precedes, InsertAt, AddFlow;
    var l', idOf', w' := l + [n], idOf[n := f.id], AddFlow(w, f);
    forall id | id in w'.flows
      ensures exists m: FlowNode :: m in l' && idOf'[m] == id
    {
      if id == f.id {
        assert n in l' && idOf'[n] == id;
      } else {
        var m: FlowNode :| m in l && idOf[m] == id;
        assert m in l' && idOf'[m] == id;
      }
    }
  }

  ghost predicate Rising(l: seq<FlowNode>, idOf: map<FlowNode, nat>) {
    (forall m :: m in l ==> m in idOf) && forall i, j :: 0 <= i < j < |l| ==> idOf[l[i]] < idOf[l[j]]
  }

  /** Ids that rise along a list tell its nodes apart. */
  lemma RisingApart(l: seq<FlowNode>, idOf: map<FlowNode, nat>)
    requires Rising(l, idOf)
    ensures Distinct(l) && forall m: FlowNode, n: FlowNode :: m in l && n in l && m != n ==> idOf[m] != idOf[n]
  {
    forall m: FlowNode, n: FlowNode | m in l && n in l && m != n
      ensures idOf[m] != idOf[n]
    {
      var i, j :| 0 <= i < |l| && 0 <= j < |l| && l[i] == m && l[j] == n;
    }
  }

  /** They go on rising when one node is taken out. */
  lemma RisingCut(l: seq<FlowNode>, idOf: map<FlowNode, nat>, i: nat)
    requires Rising(l, idOf) && i < |l|
    ensures Rising(l[..i] + l[i + 1..], idOf)
  {
    var r := l[..i] + l[i + 1..];
    forall p, q | 0 <= p < q < |r|
      ensures idOf[r[p]] < idOf[r[q]]
    {
      assert r[p] == l[if p < i then p else p + 1] && r[q] == l[if q < i then q else q + 1];
    }
  }

  lemma RisingWithout(l: seq<FlowNode>, idOf: map<FlowNode, nat>, n: FlowNode)
    requires Rising(l, idOf) && n in l
    ensures Rising(Without(l, n), idOf)
  {
    hide Without, Rising;
    RisingApart(l, idOf);
    var i :| 0 <= i < |l| && l[i] == n;
    WithoutAt(l, i);
    RisingCut(l, idOf, i);
  }

  /** Taking a node out, and deleting the flow it stands for, keeps it. */
  lemma DeleteStands(l: seq<FlowNode>, idOf: map<FlowNode, nat>, w: World, n: FlowNode)
    requires TableOk(w) && StandsFor(l, idOf, w) && n in l && w.flows[idOf[n]].server < |w.servers|
    ensures StandsFor(Without(l, n), idOf, Deleted(w, idOf[n]))
  {
    hide Bucket, Precedes, Without, IndexIn;
    assert Rising(l, idOf);
    RisingWithout(l, idOf, n);
    RisingApart(l, idOf);
    var l', w' := Without(l, n), Deleted(w, idOf[n]);
    forall id | id in w'.flows
      ensures exists m: FlowNode :: m in l' && idOf[m] == id
    {
      var m: FlowNode :| m in l && idOf[m] == id;
    }
  }

  /** Moving flows on in place keeps it. */
  lemma RewriteStands(l: seq<FlowNode>, idOf: map<FlowNode, nat>, w: World, w': World)
    requires StandsFor(l, idOf, w) && w'.flows.Keys == w.flows.Keys
    requires forall id :: id in w.flows ==> w'.flows[id].bucket == w.flows[id].bucket
    ensures StandsFor(l, idOf, w')
  {
    hide Bucket;
  }
}
