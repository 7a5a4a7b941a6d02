/** The growable array of servers in pcp_client_db. */
module ServerArray {
  import opened Base
  import opened ServerMachine
  import opened Epoch

  const INIT_COUNT: nat := 5
  const INT32_MAX: int := 0x7fff_ffff

  datatype Slot = Slot(index: int, srv: Server)

  /** An all-zero record: an unused slot. */
  const BLANK: Slot :=
    Slot(0, Server(Uninit, 0, None, None, 0, 0, 0, 0, 0, Zeros(16), Zeros(16), 0, Zeros(12), Zeros(4)))

  predicate Live(s: Slot) {
    s.srv.state != Uninit
  }

  // -------------------------------------------------------- specification

  function Blanks(n: nat): (b: seq<Slot>)
    ensures |b| == n && forall i :: 0 <= i < n ==> b[i] == BLANK
  {
    seq(n, i => BLANK)
  }

  /** The scope id that a server is registered and looked up with. */
  function ScopeFor(ip: Ip, scope: U32): U32 {
    if IsLinkLocal(ip) then scope else 0
  }

  /** A live server that is found by that address and scope. */
  predicate Reaches(srv: Server, ip: Ip, scope: U32) {
    srv.state != Uninit && srv.ip == ip && srv.scope == ScopeFor(ip, scope)
  }

  /** i is the lowest unused slot of c, or its length if all are used. */
  predicate IsFirstFree(c: seq<Slot>, i: nat) {
    i <= |c| && (i < |c| ==> !Live(c[i])) && forall j :: 0 <= j < i ==> Live(c[j])
  }

  /** The array with room for one more: 5 slots at first, doubled when full. */
  function Room(c: seq<Slot>, i: nat): (r: seq<Slot>)
    requires IsFirstFree(c, i)
    ensures i < |r| && c <= r
  {
    if c == [] then Blanks(INIT_COUNT) else if i < |c| then c else c + Blanks(|c|)
  }

  /** The record written for a new server over what the slot held. */
  function Registered(old_: Slot, i: nat, ip: Ip, scope: U32, nonce: Nonce): (s: Slot)
    ensures Live(s)
  {
    Slot(if i > INT32_MAX then -1 else i,
         old_.srv.(epoch := NO_EPOCH, ip := ip, scope := ScopeFor(ip, scope), state := Allocated,
                   version := MAX_VERSION, nonce := nonce))
  }

  function WithServer(c: seq<Slot>, i: nat, ip: Ip, scope: U32, nonce: Nonce): (r: seq<Slot>)
    requires IsFirstFree(c, i)
    ensures i < |r| && |c| <= |r|
  {
    var room := Room(c, i);
    room[i := Registered(room[i], i, ip, scope, nonce)]
  }

  /** A live server knows its own slot number. */
  predicate IndexOk(c: seq<Slot>) {
    forall i :: 0 <= i < |c| && Live(c[i]) ==> c[i].index == if i > INT32_MAX then -1 else i
  }

  // ------------------------------------------------------------- the array

  class ServerArray {
    var slots: array?<Slot>

    function Contents(): seq<Slot>
      reads this, slots
    {
      if slots == null then [] else slots[..]
    }

    ghost predicate Valid()
      reads this, slots
    {
      slots != null ==> slots.Length > 0
    }

    constructor ()
      ensures Valid() && Contents() == []
    {
      slots := null;
    }

    /** pcp_new_server. */
    method New(ip: Ip, scope: U32, nonce: Nonce) returns (index: int, ghost i: nat)
      requires Valid()
      modifies this, slots
      ensures Valid() && IsFirstFree(old(Contents()), i)
      ensures Contents() == WithServer(old(Contents()), i, ip, scope, nonce)
      ensures index == if i > INT32_MAX then -1 else i
    {
      ghost var was := Contents();
      if slots == null {
        slots := new Slot[INIT_COUNT](j => BLANK);
      }
      var k: nat := 0;
      var a := slots;
      while k < a.Length && Live(a[k])
        invariant k <= a.Length && slots == a
        invariant a[..] == if was == [] then Blanks(INIT_COUNT) else was
        invariant forall j :: 0 <= j < k ==> Live(a[j])
      {
        k := k + 1;
      }
      assert was == [] ==> a[..][0] == BLANK && k == 0;
      if k == a.Length {
        var len := a.Length;
        var bigger := new Slot[2 * len](j requires 0 <= j reads a => if j < a.Length then a[j] else BLANK);
        slots := bigger;
        assert bigger[..] == a[..] + Blanks(len);
        a := bigger;
      }
      i := if was == [] then 0 else k;
      assert a[..] == Room(was, i);
      index := if k > INT32_MAX then -1 else k;
      a[k] := Registered(a[k], k, ip, scope, nonce);
    }

    /** get_pcp_server. */
    method Get(index: int) returns (r: Option<Slot>)
      ensures r == if 0 <= index < |Contents()| && Live(Contents()[index]) then Some(Contents()[index]) else None
    {
      if slots == null || index < 0 || index >= slots.Length || !Live(slots[index]) {
        return None;
      }
      return Some(slots[index]);
    }

    /** get_pcp_server_by_ip: the lowest live slot registered for that address and scope. */
    method GetByIp(ip: Ip, scope: U32) returns (found: Option<nat>)
      ensures found.Some? ==> found.value < |Contents()| && At(Contents()[found.value], ip, scope)
      ensures var n := if found.Some? then found.value else |Contents()|;
        forall j :: 0 <= j < n ==> !At(Contents()[j], ip, scope)
    {
      if slots == null {
        return None;
      }
      var i: nat := 0;
      while i < slots.Length
        invariant i <= slots.Length
        invariant forall j :: 0 <= j < i ==> !At(slots[j], ip, scope)
      {
        if Live(slots[i]) && slots[i].srv.ip == ip && slots[i].srv.scope == ScopeFor(ip, scope) {
          return Some(i);
        }
        i := i + 1;
      }
      return None;
    }
  }

  predicate At(s: Slot, ip: Ip, scope: U32) {
    Reaches(s.srv, ip, scope)
  }

  // ------------------------------------------------ sequences of additions

  datatype Request = Request(ip: Ip, scope: U32, nonce: Nonce)

  function FirstFree(c: seq<Slot>, k: nat): (i: nat)
    requires k <= |c| && forall j :: 0 <= j < k ==> Live(c[j])
    ensures IsFirstFree(c, i)
    decreases |c| - k
  {
    if k == |c| || !Live(c[k]) then k else FirstFree(c, k + 1)
  }

  /** The array after a sequence of pcp_new_server calls. */
  function AfterAll(c: seq<Slot>, reqs: seq<Request>): (r: seq<Slot>)
    decreases |reqs|
  {
    if reqs == [] then c
    else AfterAll(WithServer(c, FirstFree(c, 0), reqs[0].ip, reqs[0].scope, reqs[0].nonce), reqs[1..])
  }

  /** One addition: indices stay right, no live server changes, one slot goes live, at version 2 and without a baseline. */
  lemma WithServerKeeps(c: seq<Slot>, i: nat, ip: Ip, scope: U32, nonce: Nonce)
    requires IsFirstFree(c, i) && IndexOk(c)
    ensures var r := WithServer(c, i, ip, scope, nonce);
      IndexOk(r) && At(r[i], ip, scope) && (i >= |c| || !Live(c[i])) &&
      r[i].srv.state == Allocated && r[i].srv.version == 2 && r[i].srv.epoch == 0xffff_ffff && r[i].srv.nonce == nonce &&
      (forall j :: 0 <= j < |c| && Live(c[j]) ==> r[j] == c[j]) &&
      (forall j :: 0 <= j < |r| && Live(r[j]) && j != i ==> j < |c| && r[j] == c[j])
  {
  }

  /** Over any sequence of additions every live server keeps its slot and contents, and its index is its slot. */
  lemma {:induction false} AdditionsKeepServers(c: seq<Slot>, reqs: seq<Request>)
    requires IndexOk(c)
    ensures IndexOk(AfterAll(c, reqs)) && |c| <= |AfterAll(c, reqs)|
    ensures forall j :: 0 <= j < |c| && Live(c[j]) ==> AfterAll(c, reqs)[j] == c[j]
    decreases |reqs|
  {
    if reqs != [] {
      var i := FirstFree(c, 0);
      var c' := WithServer(c, i, reqs[0].ip, reqs[0].scope, reqs[0].nonce);
      WithServerKeeps(c, i, reqs[0].ip, reqs[0].scope, reqs[0].nonce);
      AdditionsKeepServers(c', reqs[1..]);
    }
  }

  /** Added servers fill the lowest slots: from an empty array, the n-th addition is server n. */
  lemma {:induction false} AdditionsAreDense(c: seq<Slot>, reqs: seq<Request>, n: nat)
    requires n <= |c| && forall j :: 0 <= j < |c| ==> (Live(c[j]) <==> j < n)
    ensures var r := AfterAll(c, reqs);
      n + |reqs| <= |r| && forall j :: 0 <= j < |r| ==> (Live(r[j]) <==> j < n + |reqs|)
    decreases |reqs|
  {
    if reqs != [] {
      var i := FirstFree(c, 0);
      assert n < |c| ==> !Live(c[n]);
      assert i == n;
      AdditionsAreDense(WithServer(c, i, reqs[0].ip, reqs[0].scope, reqs[0].nonce), reqs[1..], n + 1);
    }
  }
}
