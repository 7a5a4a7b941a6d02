/** The metadata list of a flow: pcp_db_add_md keeps one value per id. */
module Metadata {
  import opened Base
  import opened Wire

  const VAL_MAX: nat := 24

  /** A value cut to the size of val_buf. */
  function Clip(val: seq<Byte>): (v: seq<Byte>)
    ensures |v| <= VAL_MAX
  {
    if |val| > VAL_MAX then val[..VAL_MAX] else val
  }

  /** The first entry with that id, or the length of the list. */
  function IndexOf(l: MdList, id: U16, k: nat): (i: nat)
    requires k <= |l|
    ensures k <= i <= |l| && (i < |l| ==> l[i].id == id) && forall j :: k <= j < i ==> l[j].id != id
    decreases |l| - k
  {
    if k == |l| || l[k].id == id then k else IndexOf(l, id, k + 1)
  }

  function With(l: MdList, id: U16, val: seq<Byte>): (r: MdList) {
    var m, i := Md(id, Clip(val)), IndexOf(l, id, 0);
    if i < |l| then l[i := m] else l + [m]
  }

  /** pcp_db_add_md. */
  method AddMd(l: MdList, id: U16, val: seq<Byte>) returns (r: MdList)
    ensures r == With(l, id, val)
  {
    var i: nat := 0;
    while i < |l| && l[i].id != id
      invariant i <= |l| && IndexOf(l, id, i) == IndexOf(l, id, 0)
    {
      i := i + 1;
    }
    r := if i == |l| then l + [Md(id, [])] else l;
    r := r[i := Md(id, if |val| > VAL_MAX then val[..VAL_MAX] else val)];
  }

  // -------------------------------------------------- any series of calls

  datatype Call = Call(id: U16, val: seq<Byte>)

  function AfterAll(calls: seq<Call>): (l: MdList) {
    if calls == [] then []
    else
      var c := calls[|calls| - 1];
      With(AfterAll(calls[..|calls| - 1]), c.id, c.val)
  }

  /** The ids in the order in which they were first set. */
  function FirstSet(calls: seq<Call>): (ids: seq<U16>) {
    if calls == [] then []
    else
      var before := FirstSet(calls[..|calls| - 1]);
      var id := calls[|calls| - 1].id;
      if id in before then before else before + [id]
  }

  /** The value an id was last set to. */
  function LastSet(calls: seq<Call>, id: U16): (v: Option<seq<Byte>>) {
    if calls == [] then None
    else if calls[|calls| - 1].id == id then Some(calls[|calls| - 1].val)
    else LastSet(calls[..|calls| - 1], id)
  }

  /** The list holds exactly the ids ever set, in the order they were first set, each once, each with its last value. */
  ghost predicate Holds(l: MdList, calls: seq<Call>) {
    && |l| == |FirstSet(calls)|
    && (forall i :: 0 <= i < |l| ==>
          l[i].id == FirstSet(calls)[i] && LastSet(calls, l[i].id).Some? &&
          l[i].val == Clip(LastSet(calls, l[i].id).value))
    && (forall i, j :: 0 <= i < j < |l| ==> l[i].id != l[j].id)
  }

  lemma {:induction false} LastMdWins(calls: seq<Call>)
    ensures Holds(AfterAll(calls), calls)
  {
    if calls != [] {
      var before, c := calls[..|calls| - 1], calls[|calls| - 1];
      LastMdWins(before);
      WithHolds(AfterAll(before), before, c);
      assert calls == before + [c];
    }
  }

  lemma WithHolds(l: MdList, before: seq<Call>, c: Call)
    requires Holds(l, before)
    ensures Holds(With(l, c.id, c.val), before + [c])
  {
    hide Clip;
    var calls, r, i := before + [c], With(l, c.id, c.val), IndexOf(l, c.id, 0);
    assert calls[..|calls| - 1] == before;
    assert c.id in FirstSet(before) <==> i < |l|;
    forall k | 0 <= k < |r|
      ensures r[k].id == FirstSet(calls)[k] && LastSet(calls, r[k].id).Some? && r[k].val == Clip(LastSet(calls, r[k].id).value)
    {
      assert k < |l| && k != i ==> r[k] == l[k] && l[k].id != c.id;
    }
  }
}
