/** The ids of outgoing messages (src/mtproto_client.cpp). */
module MessageIds {
  // The server time in units of 2^-32 seconds, without its last two bits.
  function FromTime(now: int): int { now - now % 4 }

  // The last multiple of four that is not later.
  lemma NearestInTime(now: int)
    ensures FromTime(now) % 4 == 0 && now - 4 < FromTime(now) <= now
  {
  }

  class Session {
    var lastMsgId: int

    constructor ()
      ensures lastMsgId == 0
    {
      lastMsgId := 0;
    }

    // Ids grow and stay multiples of 4, even when the clock is put back.
    method GenerateNextMsgId(now: int) returns (id: int)
      requires lastMsgId % 4 == 0
      modifies this
      ensures id % 4 == 0 && id > old(lastMsgId) && id >= FromTime(now) && lastMsgId == id
      ensures id == FromTime(now) || id == old(lastMsgId) + 4
      ensures id == Next(old(lastMsgId), now)
    {
      id := FromTime(now);
      if id <= lastMsgId {
        lastMsgId := lastMsgId + 4;
        id := lastMsgId;
      } else {
        lastMsgId := id;
      }
    }
  }

  function Next(last: int, now: int): int { if FromTime(now) <= last then last + 4 else FromTime(now) }

  // The ids generated one after the other at the given times.
  function Ids(last: int, times: seq<int>): seq<int>
    decreases |times|
  {
    if times == [] then [] else [Next(last, times[0])] + Ids(Next(last, times[0]), times[1..])
  }

  // Whatever the clock does, no id of a session comes twice.
  lemma {:induction false} IdsIncrease(last: int, times: seq<int>)
    ensures |Ids(last, times)| == |times|
    ensures forall i | 0 <= i < |times| :: Ids(last, times)[i] > last
    ensures forall i, j | 0 <= i < j < |times| :: Ids(last, times)[i] < Ids(last, times)[j]
    decreases |times|
  {
    if times != [] {
      var next := Next(last, times[0]);
      IdsIncrease(next, times[1..]);
      var rest := Ids(next, times[1..]);
      assert Ids(last, times) == [next] + rest;
      assert forall i | 0 < i < |times| :: Ids(last, times)[i] == rest[i - 1];
    }
  }
}
