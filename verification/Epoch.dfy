/** The server-restart test of section 8.5 of RFC 6887, in the 32-bit form of compare_epochs. */
module Epoch {
  import opened Base

  /** Conversion to uint32_t. */
  function Wrap32(x: int): (r: U32) {
    x % TWO32
  }

  const NO_EPOCH: U32 := 0xffff_ffff

  /** The comparison, with every sum and difference wrapped to 32 bits. */
  predicate RestartSeen(clientDelta: U32, serverDelta: U32) {
    || Wrap32(clientDelta + 2) < Wrap32(serverDelta - serverDelta / 16)
    || Wrap32(serverDelta + 2) < Wrap32(clientDelta - clientDelta / 16)
  }

  /** The rule as section 8.5 states it, over unbounded elapsed times. */
  predicate Inconsistent(client: int, server: int) {
    client + 2 < server - server / 16 || server + 2 < client - client / 16
  }

  lemma WrapSmall(x: int)
    requires 0 <= x < TWO32
    ensures Wrap32(x) == x
  {
  }

  lemma WrapSum(x: U32)
    ensures Wrap32(x + 2) == if x < TWO32 - 2 then x + 2 else x + 2 - TWO32
  {
  }

  /** For all 32-bit elapsed times the test is the stated rule, except that the last two values always count as a restart. */
  lemma EpochTestIsExact(client: U32, server: U32)
    ensures RestartSeen(client, server) <==> Inconsistent(client, server) || client >= TWO32 - 2 || server >= TWO32 - 2
  {
    WrapSum(client);
    WrapSum(server);
    WrapSmall(client - client / 16);
    WrapSmall(server - server / 16);
  }

  /** The rule and the test disagree on equal clocks at the bound. */
  lemma EpochTestWraps()
    ensures RestartSeen(TWO32 - 1, TWO32 - 1) && !Inconsistent(TWO32 - 1, TWO32 - 1)
  {
  }

  /** A server whose clock kept within two seconds of ours is never taken for restarted. */
  lemma NoFalseRestart(client: int, server: int)
    requires 0 <= client < TWO32 - 2 && 0 <= server < TWO32 - 2
    requires -2 <= server - client <= 2
    ensures !RestartSeen(Wrap32(client), Wrap32(server))
  {
    WrapSmall(client);
    WrapSmall(server);
    EpochTestIsExact(client, server);
  }

  /** An epoch that went back by up to 2^31 seconds is reported while under 2^30 seconds passed here. */
  lemma BackwardStepIsSeen(client: int, back: int)
    requires 0 <= client < 0x4000_0000 && 1 <= back <= 0x8000_0000
    ensures RestartSeen(Wrap32(client), Wrap32(-back))
  {
    hide RestartSeen;
    WrapSmall(client);
    WrapBack(back);
    EpochTestIsExact(client, TWO32 - back);
  }

  lemma WrapBack(back: int)
    requires 1 <= back <= TWO32
    ensures Wrap32(-back) == TWO32 - back
  {
  }
}
