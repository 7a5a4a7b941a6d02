/**
 The flow hash table: buckets of flows chained through their own `next` pointers.
 It stands for the list of its flows in the order they were added.
 */
module FlowTable {
  import opened FlowKey

  const EMPTY: int := 0xffff_ffff

  /** The fields of pcp_flow_s that the table uses; keys are not rewritten here. */
  class FlowNode {
    const kd: Key
    const server: nat
    var next: FlowNode?
    var bucket: int

    constructor (kd: Key, server: nat)
      ensures this.kd == kd && this.server == server && next == null && bucket == EMPTY
    {
      this.kd, this.server, next, bucket := kd, server, null, EMPTY;
    }

    predicate Matches(k: Key, s: nat) {
      server == s && kd == k
    }
  }

  // ------------------------------------------------ lists of flows

  ghost predicate Distinct(l: seq<FlowNode>) {
    forall i, j :: 0 <= i < j < |l| ==> l[i] != l[j]
  }

  /** The flows of bucket b, in list order. */
  ghost function InBucket(l: seq<FlowNode>, b: nat): (r: seq<FlowNode>)
    ensures forall n :: n in r ==> n in l && Bucket(n.kd) == b
    ensures forall n :: n in l && Bucket(n.kd) == b ==> n in r
    ensures |r| <= |l|
  {
    if l == [] then []
    else
      var n := l[|l| - 1];
      assert l == l[..|l| - 1] + [n];
      InBucket(l[..|l| - 1], b) + if Bucket(n.kd) == b then [n] else []
  }

  /** The list without flow f. */
  ghost function Without(l: seq<FlowNode>, f: FlowNode): (r: seq<FlowNode>)
    ensures forall n :: n in r ==> n in l && n != f
    ensures forall n :: n in l && n != f ==> n in r
  {
    if l == [] then []
    else
      var n := l[|l| - 1];
      assert l == l[..|l| - 1] + [n];
      Without(l[..|l| - 1], f) + if n == f then [] else [n]
  }

  /** The first flow of the list with that key and server. */
  ghost function First(l: seq<FlowNode>, k: Key, s: nat): (r: FlowNode?)
    ensures r == null ==> forall n :: n in l ==> !n.Matches(k, s)
    ensures r != null ==> r in l && r.Matches(k, s)
  {
    if l == [] then null
    else
      var r := First(l[..|l| - 1], k, s);
      var n := l[|l| - 1];
      assert l == l[..|l| - 1] + [n];
      if r != null then r else if n.Matches(k, s) then n else null
  }

  lemma Snoc(l: seq<FlowNode>, n: FlowNode)
    ensures (l + [n])[..|l + [n]| - 1] == l && (l + [n])[|l + [n]| - 1] == n
  {
  }

  lemma Nil(b: nat, k: Key, s: nat)
    ensures InBucket([], b) == [] && First([], k, s) == null
  {
  }

  lemma NilWithout(f: FlowNode)
    ensures Without([], f) == []
  {
  }

  lemma InBucketSnoc(l: seq<FlowNode>, n: FlowNode, b: nat)
    ensures InBucket(l + [n], b) == InBucket(l, b) + if Bucket(n.kd) == b then [n] else []
  {
    hide Bucket;
    Snoc(l, n);
  }

  lemma WithoutSnoc(l: seq<FlowNode>, n: FlowNode, f: FlowNode)
    ensures Without(l + [n], f) == Without(l, f) + if n == f then [] else [n]
  {
    Snoc(l, n);
  }

  lemma FirstSnoc(l: seq<FlowNode>, n: FlowNode, k: Key, s: nat)
    ensures First(l + [n], k, s) == if First(l, k, s) != null then First(l, k, s) else if n.Matches(k, s) then n else null
  {
    Snoc(l, n);
  }

  /** Looking in the key's bucket only finds what looking everywhere finds. */
  lemma {:induction false} FirstInBucket(l: seq<FlowNode>, k: Key, s: nat)
    ensures First(InBucket(l, Bucket(k)), k, s) == First(l, k, s)
  {
    hide Bucket, First, InBucket;
    if l == [] {
      Nil(Bucket(k), k, s);
    } else {
      var l', n := l[..|l| - 1], l[|l| - 1];
      assert l == l' + [n];
      assert InBucket(l', Bucket(k)) + [] == InBucket(l', Bucket(k));
      FirstInBucket(l', k, s);
      InBucketSnoc(l', n, Bucket(k));
      FirstSnoc(l', n, k, s);
      FirstSnoc(InBucket(l', Bucket(k)), n, k, s);
    }
  }

  /** If the first i flows do not match and the next one does, it is the first. */
  lemma {:induction false} FirstIsAt(l: seq<FlowNode>, i: nat, k: Key, s: nat)
    requires i <= |l| && (forall j :: 0 <= j < i ==> !l[j].Matches(k, s)) && (i < |l| ==> l[i].Matches(k, s))
    ensures First(l, k, s) == if i < |l| then l[i] else null
  {
    if i < |l| {
      if i == |l| - 1 {
        FirstIsAt(l[..i], i, k, s);
      } else {
        FirstIsAt(l[..|l| - 1], i, k, s);
      }
    }
  }

  lemma {:induction false} DistinctBucket(l: seq<FlowNode>, b: nat)
    requires Distinct(l)
    ensures Distinct(InBucket(l, b))
  {
    hide Bucket;
    if l != [] {
      var n := l[|l| - 1];
      DistinctBucket(l[..|l| - 1], b);
      assert n !in l[..|l| - 1];
    }
  }

  /** Removing a flow and picking a bucket commute. */
  lemma {:induction false} WithoutInBucket(l: seq<FlowNode>, f: FlowNode, b: nat)
    ensures InBucket(Without(l, f), b) == Without(InBucket(l, b), f)
  {
    hide Bucket, Without, InBucket;
    if l == [] {
      NilWithout(f);
      Nil(b, f.kd, 0);
    } else {
      var l', n := l[..|l| - 1], l[|l| - 1];
      assert l == l' + [n];
      assert InBucket(l', b) + [] == InBucket(l', b) && Without(l', f) + [] == Without(l', f);
      WithoutInBucket(l', f, b);
      WithoutSnoc(l', n, f);
      InBucketSnoc(l', n, b);
      InBucketSnoc(Without(l', f), n, b);
      WithoutSnoc(InBucket(l', b), n, f);
    }
  }

  /** In a list of distinct flows, removing the one at position i closes the gap. */
  lemma {:induction false} WithoutAt(l: seq<FlowNode>, i: nat)
    requires Distinct(l) && i < |l|
    ensures Without(l, l[i]) == l[..i] + l[i + 1..]
  {
    var l' := l[..|l| - 1];
    if i == |l| - 1 {
      WithoutAbsent(l', l[i]);
    } else {
      WithoutAt(l', i);
      assert l[..i] + l[i + 1..] == (l'[..i] + l'[i + 1..]) + [l[|l| - 1]];
    }
  }

  lemma {:induction false} WithoutAbsent(l: seq<FlowNode>, f: FlowNode)
    requires f !in l
    ensures Without(l, f) == l
  {
    if l != [] {
      WithoutAbsent(l[..|l| - 1], f);
    }
  }

  lemma WithoutDistinct(l: seq<FlowNode>, f: FlowNode)
    requires Distinct(l) && f in l
    ensures Distinct(Without(l, f)) && |Without(l, f)| == |l| - 1
  {
    var i :| 0 <= i < |l| && l[i] == f;
    WithoutAt(l, i);
  }

  // ---------------------------------------------------- iteration order

  /** The flows of the buckets below b, bucket by bucket. */
  ghost function ByBucket(l: seq<FlowNode>, b: nat): (r: seq<FlowNode>)
    ensures forall n :: n in r ==> n in l && Bucket(n.kd) < b
    ensures forall n :: n in l && Bucket(n.kd) < b ==> n in r
  {
    if b == 0 then [] else ByBucket(l, b - 1) + InBucket(l, b - 1)
  }

  /** m was added to the list before n. */
  ghost predicate Older(l: seq<FlowNode>, m: FlowNode, n: FlowNode) {
    exists p, q :: 0 <= p < q < |l| && l[p] == m && l[q] == n
  }

  lemma {:induction false} InBucketOlder(l: seq<FlowNode>, b: nat, i: nat, j: nat)
    requires i < j < |InBucket(l, b)|
    ensures Older(l, InBucket(l, b)[i], InBucket(l, b)[j])
  {
    hide Bucket;
    var l', n := l[..|l| - 1], l[|l| - 1];
    var r := InBucket(l', b);
    if j < |r| {
      InBucketOlder(l', b, i, j);
      var p, q :| 0 <= p < q < |l'| && l'[p] == r[i] && l'[q] == r[j];
      assert l[p] == r[i] && l[q] == r[j];
    } else {
      assert r[i] in l';
      var p :| 0 <= p < |l'| && l'[p] == r[i];
      assert l[p] == r[i] && l[|l| - 1] == n;
    }
  }

  /** Iteration goes by bucket and, within a bucket, by age. */
  lemma {:induction false} IterationOrder(l: seq<FlowNode>, b: nat, i: nat, j: nat)
    requires i < j < |ByBucket(l, b)|
    ensures var m, n := ByBucket(l, b)[i], ByBucket(l, b)[j];
      Bucket(m.kd) < Bucket(n.kd) || (Bucket(m.kd) == Bucket(n.kd) && Older(l, m, n))
    decreases b
  {
    hide Bucket, InBucket, Older;
    var r, c := ByBucket(l, b - 1), InBucket(l, b - 1);
    if j < |r| {
      IterationOrder(l, b - 1, i, j);
    } else if i < |r| {
      assert r[i] in r && c[j - |r|] in c;
    } else {
      assert c[i - |r|] in c && c[j - |r|] in c;
      InBucketOlder(l, b - 1, i - |r|, j - |r|);
    }
  }

  // ---------------------------------------------------------- the table

  /** The flow after position i of a chain. */
  ghost function After(chain: seq<FlowNode>, i: nat): FlowNode? {
    if i + 1 < |chain| then chain[i + 1] else null
  }

  /** The list that the pointers from head on form. */
  ghost predicate Linked(chain: seq<FlowNode>, head: FlowNode?)
    reads set n | n in chain
  {
    && head == (if |chain| == 0 then null else chain[0])
    && (forall i :: 0 <= i < |chain| ==> chain[i].next == After(chain, i))
  }

  /** Going past chain[i] links the rest. */
  lemma LinkedWithout(chain: seq<FlowNode>, i: nat, head: FlowNode?)
    requires i < |chain| && head == if i == 0 then After(chain, 0) else chain[0]
    requires forall k :: 0 <= k < |chain| && k != i && k != i - 1 ==> chain[k].next == After(chain, k)
    requires i > 0 ==> chain[i - 1].next == After(chain, i)
    ensures Linked(chain[..i] + chain[i + 1..], head)
  {
    var rest := chain[..i] + chain[i + 1..];
    forall k | 0 <= k < |rest|
      ensures rest[k].next == After(rest, k)
    {
      assert rest[k] == chain[if k < i then k else k + 1];
    }
  }

  class FlowTable {
    var heads: array<FlowNode?>
    var count: nat
    /** All flows, in the order they were added. */
    ghost var order: seq<FlowNode>

    ghost predicate Valid()
      reads this, heads, order
    {
      && heads.Length == FLOW_HASH_SIZE
      && Distinct(order) && count == |order|
      && (forall n :: n in order ==> n.bucket == Bucket(n.kd))
      && (forall b: nat :: b < FLOW_HASH_SIZE ==> Linked(InBucket(order, b), heads[b]))
    }

    ghost function Nodes(): set<FlowNode>
      reads this
    {
      set n | n in order
    }

    constructor ()
      ensures Valid() && fresh(heads) && order == []
    {
      heads := new FlowNode?[FLOW_HASH_SIZE](i => null);
      count, order := 0, [];
    }

    /** The walk of pcp_db_add_flow to the last flow of a bucket. */
    method Last(b: nat) returns (p: FlowNode)
      requires Valid() && b < FLOW_HASH_SIZE && heads[b] != null
      ensures var chain := InBucket(order, b); chain != [] && p == chain[|chain| - 1]
    {
      hide Bucket, InBucket;
      ghost var chain := InBucket(order, b);
      assert Linked(chain, heads[b]);
      p := heads[b];
      ghost var i := 0;
      while p.next != null
        invariant 0 <= i < |chain| && chain[i] == p
        decreases |chain| - i
      {
        p := p.next;
        i := i + 1;
      }
    }

    /** *fdb = f at the end of bucket b's chain. */
    method Link(b: nat, f: FlowNode)
      requires Valid() && b < FLOW_HASH_SIZE && f !in order && f.next == null
      modifies heads, order`next
      ensures Linked(InBucket(order, b) + [f], heads[b])
      ensures forall c: nat :: c < FLOW_HASH_SIZE && c != b ==> Linked(InBucket(order, c), heads[c])
    {
      hide Bucket, InBucket;
      ghost var chain := InBucket(order, b);
      DistinctBucket(order, b);
      assert Linked(chain, heads[b]);
      assert forall c: nat :: c < FLOW_HASH_SIZE ==> old(Linked(InBucket(order, c), heads[c]));
      if heads[b] == null {
        heads[b] := f;
      } else {
        var p := Last(b);
        assert p in chain;
        p.next := f;
      }
    }

    /** pcp_db_add_flow: append f to the chain of its key's bucket. */
    method Add(f: FlowNode)
      requires Valid() && f !in order
      modifies this, heads, order`next, f
      ensures Valid() && heads == old(heads)
      ensures order == old(order) + [f]
    {
      hide Bucket, InBucket, Linked;
      var b := Bucket(f.kd);
      f.bucket, f.next := b, null;
      Link(b, f);
      forall c: nat
        ensures InBucket(order + [f], c) == if b == c then InBucket(order, c) + [f] else InBucket(order, c)
      {
        InBucketSnoc(order, f, c);
        assert InBucket(order, c) + [] == InBucket(order, c);
      }
      count, order := count + 1, order + [f];
    }

    /** pcp_get_flow: the first-added flow with that key and server, or null if there is none. */
    method Get(k: Key, s: nat) returns (r: FlowNode?)
      requires Valid()
      ensures r == First(order, k, s)
    {
      hide Bucket, InBucket, First;
      ghost var chain := InBucket(order, Bucket(k));
      assert Linked(chain, heads[Bucket(k)]);
      FirstInBucket(order, k, s);
      r := heads[Bucket(k)];
      ghost var i := 0;
      while r != null
        invariant 0 <= i <= |chain| && r == (if i < |chain| then chain[i] else null)
        invariant forall j :: 0 <= j < i ==> !chain[j].Matches(k, s)
        decreases |chain| - i
      {
        if r.server == s && r.kd == k {
          break;
        }
        r := r.next;
        i := i + 1;
      }
      FirstIsAt(chain, i, k, s);
    }

    /** The walk of pcp_db_rem_flow: cur is f or null, and prev the flow whose `next` fdb points at. */
    method Find(b: nat, f: FlowNode) returns (prev: FlowNode?, cur: FlowNode?, ghost i: nat)
      requires Valid() && b < FLOW_HASH_SIZE
      ensures cur == null ==> f !in InBucket(order, b)
      ensures cur != null ==> cur == f && i < |InBucket(order, b)| && InBucket(order, b)[i] == f
      ensures cur != null ==> prev == if i == 0 then null else InBucket(order, b)[i - 1]
    {
      hide Bucket, InBucket;
      ghost var chain := InBucket(order, b);
      assert Linked(chain, heads[b]);
      prev, cur, i := null, heads[b], 0;
      while cur != null && cur != f
        invariant i <= |chain| && cur == (if i < |chain| then chain[i] else null)
        invariant prev == if i == 0 then null else chain[i - 1]
        invariant f !in chain[..i]
        decreases |chain| - i
      {
        prev, cur, i := cur, cur.next, i + 1;
      }
    }

    /** (*fdb) = (*fdb)->next at the place that Find found. */
    method Unlink(b: nat, f: FlowNode, prev: FlowNode?, ghost i: nat)
      requires Valid() && b < FLOW_HASH_SIZE && i < |InBucket(order, b)| && InBucket(order, b)[i] == f
      requires prev == if i == 0 then null else InBucket(order, b)[i - 1]
      modifies heads, order`next
      ensures Linked(Without(InBucket(order, b), f), heads[b])
      ensures forall c: nat :: c < FLOW_HASH_SIZE && c != b ==> Linked(InBucket(order, c), heads[c])
    {
      hide Bucket, InBucket, Without;
      ghost var chain := InBucket(order, b);
      DistinctBucket(order, b);
      WithoutAt(chain, i);
      assert Linked(chain, heads[b]);
      assert forall c: nat :: c < FLOW_HASH_SIZE ==> old(Linked(InBucket(order, c), heads[c]));
      if prev == null {
        heads[b] := f.next;
      } else {
        assert prev in chain;
        prev.next := f.next;
      }
      LinkedWithout(chain, i, heads[b]);
    }

    /** pcp_db_rem_flow: take f out of the table; false if it is not in it. */
    method Remove(f: FlowNode) returns (found: bool)
      requires Valid() && (f.bucket == EMPTY || 0 <= f.bucket < FLOW_HASH_SIZE)
      modifies this, heads, order`next, f
      ensures Valid() && heads == old(heads)
      ensures found <==> f in old(order)
      ensures order == Without(old(order), f)
      ensures found ==> f.bucket == EMPTY
    {
      hide Bucket, InBucket, Without, Linked;
      if f.bucket == EMPTY {
        WithoutAbsent(order, f);
        return false;
      }
      ghost var b := f.bucket;
      var prev, cur, i := Find(f.bucket, f);
      if cur == null {
        WithoutAbsent(order, f);
        return false;
      }
      found := true;
      Unlink(f.bucket, f, prev, i);
      f.bucket := EMPTY;
      WithoutDistinct(order, f);
      forall c: nat
        ensures InBucket(Without(order, f), c) == if c == b then Without(InBucket(order, c), f) else InBucket(order, c)
      {
        WithoutInBucket(order, f, c);
        if c != b {
          WithoutAbsent(InBucket(order, c), f);
        }
      }
      count, order := count - 1, Without(order, f);
    }

    /** The first flow of bucket b, removed: its successor becomes the head. */
    method RemoveHead(b: nat) returns (next: FlowNode?, ghost f: FlowNode)
      requires Valid() && b < FLOW_HASH_SIZE && heads[b] != null
      modifies this, heads, Nodes()
      ensures Valid() && heads == old(heads) && next == heads[b]
      ensures f in old(order) && Bucket(f.kd) == b && order == Without(old(order), f)
    {
      hide Bucket, InBucket, Without;
      ghost var chain := InBucket(order, b);
      assert Linked(chain, heads[b]);
      var cur := heads[b];
      f := cur;
      assert f == chain[0] && f in chain;
      DistinctBucket(order, b);
      WithoutAt(chain, 0);
      WithoutInBucket(order, f, b);
      next := cur.next;
      var found := Remove(cur);
      assert Linked(InBucket(order, b), heads[b]);
    }

    /** pcp_db_foreach_flow with a callback that leaves the table alone. */
    method Foreach() returns (visited: seq<FlowNode>)
      requires Valid()
      ensures visited == ByBucket(order, FLOW_HASH_SIZE)
    {
      hide Bucket, InBucket;
      visited := [];
      var b: nat := 0;
      while b < FLOW_HASH_SIZE
        invariant b <= FLOW_HASH_SIZE && visited == ByBucket(order, b)
      {
        ghost var chain, i := InBucket(order, b), 0;
        assert Linked(chain, heads[b]);
        var cur := heads[b];
        while cur != null
          invariant 0 <= i <= |chain| && cur == (if i < |chain| then chain[i] else null)
          invariant visited == ByBucket(order, b) + chain[..i]
          decreases |chain| - i
        {
          assert chain[..i + 1] == chain[..i] + [chain[i]];
          visited := visited + [cur];
          cur, i := cur.next, i + 1;
        }
        assert chain[..i] == chain;
        b := b + 1;
      }
    }

    /**
     The terminate pass: pcp_db_foreach_flow with a callback that deletes the flow it is given.
     Every flow is visited exactly once and the table ends up empty.
     */
    method DeleteAll() returns (ghost visited: seq<FlowNode>)
      requires Valid()
      modifies this, heads, Nodes()
      ensures Valid() && heads == old(heads) && order == [] && count == 0
      ensures forall b :: 0 <= b < FLOW_HASH_SIZE ==> heads[b] == null
      ensures Distinct(visited)
      ensures forall n :: n in visited ==> n in old(order)
      ensures forall n :: n in old(order) ==> n in visited
    {
      hide Bucket, InBucket, Without, Linked;
      visited := [];
      var b := 0;
      while b < FLOW_HASH_SIZE
        invariant 0 <= b <= FLOW_HASH_SIZE && Valid() && heads == old(heads) && Distinct(visited)
        invariant Nodes() <= old(Nodes())
        invariant forall n :: n in order ==> n !in visited && Bucket(n.kd) >= b
        invariant forall n :: n in visited ==> n in old(order)
        invariant forall n :: n in old(order) ==> n in visited || n in order
      {
        var cur := heads[b];
        while cur != null
          invariant Valid() && heads == old(heads) && Distinct(visited) && cur == heads[b]
          invariant Nodes() <= old(Nodes())
          invariant forall n :: n in order ==> n !in visited && Bucket(n.kd) >= b
          invariant forall n :: n in visited ==> n in old(order)
          invariant forall n :: n in old(order) ==> n in visited || n in order
          decreases |order|
        {
          ghost var before := order;
          ghost var f;
          assert forall n :: n in before ==> n in old(Nodes());
          cur, f := RemoveHead(b);
          WithoutDistinct(before, f);
          visited := visited + [f];
          assert forall n :: n in order ==> n in before && n != f;
        }
        EmptyBucket(b);
        b := b + 1;
      }
      NoBucketLeft();
      forall c: nat | c < FLOW_HASH_SIZE ensures heads[c] == null {
        EmptyTable(c);
      }
    }

    lemma NoBucketLeft()
      requires forall n :: n in order ==> Bucket(n.kd) >= FLOW_HASH_SIZE
      ensures order == []
    {
      if order != [] {
        var n := order[0];
        var b := Bucket(n.kd);
      }
    }

    lemma EmptyBucket(b: nat)
      requires Valid() && b < FLOW_HASH_SIZE && heads[b] == null
      ensures forall n :: n in order ==> Bucket(n.kd) != b
    {
      hide Bucket;
      assert Linked(InBucket(order, b), heads[b]);
      assert InBucket(order, b) == [];
    }

    lemma EmptyTable(b: nat)
      requires Valid() && b < FLOW_HASH_SIZE && order == []
      ensures heads[b] == null
    {
      assert Linked(InBucket(order, b), heads[b]);
    }
  }
}
