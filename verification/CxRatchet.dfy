/** The clock-driven epoch key ratchet both ends of a CxSec session keep. */
module CxRatchet {
  import opened CxBlock

  const EPOCH_SECONDS: nat := 60

  datatype Keys = Keys(current: Key, previous: Key, epoch: nat)

  function Iterate(ratchet: Key -> Key, n: nat, k: Key): Key {
    if n == 0 then k else ratchet(Iterate(ratchet, n - 1, k))
  }

  /** The closed form of the ratchet loop. */
  function Ratcheted(ratchet: Key -> Key, k: Keys, seconds: nat): Keys {
    var target := seconds / EPOCH_SECONDS;
    if k.epoch >= target then k
    else Keys(Iterate(ratchet, target - k.epoch, k.current), Iterate(ratchet, target - k.epoch - 1, k.current), target)
  }

  class Ratchet {
    var epochKey: Key
    var prevEpochKey: Key
    var epochIndex: nat

    constructor (k: Keys)
      ensures State() == k
    {
      epochKey, prevEpochKey, epochIndex := k.current, k.previous, k.epoch;
    }

    function State(): Keys
      reads this
    {
      Keys(epochKey, prevEpochKey, epochIndex)
    }

    method RatchetIfNeeded(ratchet: Key -> Key, seconds: nat)
      modifies this
      ensures State() == Ratcheted(ratchet, old(State()), seconds)
      ensures epochIndex == if seconds / 60 > old(epochIndex) then seconds / 60 else old(epochIndex)
      ensures epochIndex == old(epochIndex) ==> epochKey == old(epochKey) && prevEpochKey == old(prevEpochKey)
      ensures epochIndex > old(epochIndex) ==> epochKey == ratchet(prevEpochKey)
      ensures epochIndex == old(epochIndex) + 1 ==> prevEpochKey == old(epochKey)
    {
      var target := seconds / EPOCH_SECONDS;
      ghost var start := State();
      while epochIndex < target
        invariant start.epoch <= epochIndex
        invariant epochIndex <= target || epochIndex == start.epoch
        invariant epochKey == Iterate(ratchet, epochIndex - start.epoch, start.current)
        invariant prevEpochKey == if epochIndex == start.epoch then start.previous
                                  else Iterate(ratchet, epochIndex - start.epoch - 1, start.current)
      {
        prevEpochKey := epochKey;
        epochKey := ratchet(epochKey);
        epochIndex := epochIndex + 1;
      }
    }
  }

  function RatchetAll(ratchet: Key -> Key, k: Keys, clock: seq<nat>): Keys
    decreases |clock|
  {
    if clock == [] then k else RatchetAll(ratchet, Ratcheted(ratchet, k, clock[0]), clock[1..])
  }

  lemma {:induction false} IterateAdds(ratchet: Key -> Key, m: nat, n: nat, k: Key)
    ensures Iterate(ratchet, m, Iterate(ratchet, n, k)) == Iterate(ratchet, m + n, k)
  {
    if m > 0 {
      IterateAdds(ratchet, m - 1, n, k);
    }
  }

  lemma RatchetTwice(ratchet: Key -> Key, k: Keys, a: nat, b: nat)
    ensures Ratcheted(ratchet, Ratcheted(ratchet, k, a), b) == Ratcheted(ratchet, k, if a >= b then a else b)
  {
    var ea, eb := a / EPOCH_SECONDS, b / EPOCH_SECONDS;
    if a <= b {
      EpochMonotone(a, b);
    } else {
      EpochMonotone(b, a);
    }
    if k.epoch < ea < eb {
      IterateAdds(ratchet, eb - ea, ea - k.epoch, k.current);
      IterateAdds(ratchet, eb - ea - 1, ea - k.epoch, k.current);
    }
  }

  lemma EpochMonotone(a: nat, b: nat)
    requires a <= b
    ensures a / EPOCH_SECONDS <= b / EPOCH_SECONDS
  {}

  function Latest(clock: seq<nat>): nat {
    if clock == [] then 0
    else
      var rest := Latest(clock[1..]);
      if clock[0] >= rest then clock[0] else rest
  }

  /** Only the latest clock reading matters, not how often or in which order the ratchet was asked. */
  lemma {:induction false} ScheduleIsIrrelevant(ratchet: Key -> Key, k: Keys, clock: seq<nat>)
    ensures RatchetAll(ratchet, k, clock) == Ratcheted(ratchet, k, Latest(clock))
    decreases |clock|
  {
    if clock != [] {
      ScheduleIsIrrelevant(ratchet, Ratcheted(ratchet, k, clock[0]), clock[1..]);
      RatchetTwice(ratchet, k, clock[0], Latest(clock[1..]));
    }
  }

  /** Both ends start alike; a receiver at the sender's epoch or one ahead still holds the sender's key. */
  lemma ReceiverHoldsSenderKey(ratchet: Key -> Key, k: Keys, sender: seq<nat>, receiver: seq<nat>)
    ensures var s := RatchetAll(ratchet, k, sender); var r := RatchetAll(ratchet, k, receiver);
            && (r.epoch == s.epoch ==> r.current == s.current)
            && (r.epoch == s.epoch + 1 ==> r.previous == s.current)
  {
    ScheduleIsIrrelevant(ratchet, k, sender);
    ScheduleIsIrrelevant(ratchet, k, receiver);
  }
}
