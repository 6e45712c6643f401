/**
 * Staking epochs: week-long windows counted from a per-network start time.
 * Times are Unix seconds.
 */
module StakingEpoch {

  /** Seconds in a week. */
  const WEEK: int := 604800

  /** Start of epoch zero per chain id: Optimism Goerli (420) and Optimism (10). */
  const EPOCH_START: map<int, int> := map[420 := 1665878400, 10 := 1668556800]

  datatype EpochDetails = EpochDetails(epochStart: int, epochEnd: int)

  /** A network whose `EPOCH_START` entry exists and is nonzero (JavaScript truthiness). */
  predicate IsKnownNetwork(networkId: int)
    ensures IsKnownNetwork(networkId) <==> networkId == 420 || networkId == 10
  {
    networkId in EPOCH_START && EPOCH_START[networkId] != 0
  }

  /**
   * The window of `epoch` on `networkId`. An unknown network falls back to the
   * start of epoch zero on chain 10 and ignores `epoch`.
   */
  function GetEpochDetails(networkId: int, epoch: int): (d: EpochDetails)
    ensures d.epochEnd - d.epochStart == WEEK
    ensures networkId == 420 ==> d.epochStart == 1665878400 + WEEK * epoch
    ensures networkId == 10 ==> d.epochStart == 1668556800 + WEEK * epoch
    ensures !IsKnownNetwork(networkId) ==> d.epochStart == 1668556800
  {
    var start := if IsKnownNetwork(networkId) then EPOCH_START[networkId] + WEEK * epoch else EPOCH_START[10];
    EpochDetails(start, start + WEEK)
  }

  /** Unknown networks get one fixed window, whatever the epoch number. */
  lemma UnknownNetworkIgnoresEpoch(networkId: int, e1: int, e2: int)
    requires !IsKnownNetwork(networkId)
    ensures GetEpochDetails(networkId, e1) == GetEpochDetails(networkId, e2)
    ensures GetEpochDetails(networkId, e1) == GetEpochDetails(10, 0)
  {
  }

  /** On a known network each epoch ends where the next begins, and starts strictly increase. */
  lemma ConsecutiveEpochsAreContiguous(networkId: int, epoch: int)
    requires IsKnownNetwork(networkId)
    ensures GetEpochDetails(networkId, epoch).epochEnd == GetEpochDetails(networkId, epoch + 1).epochStart
    ensures GetEpochDetails(networkId, epoch).epochStart < GetEpochDetails(networkId, epoch + 1).epochStart
  {
  }

  predicate InEpoch(d: EpochDetails, t: int) {
    d.epochStart <= t < d.epochEnd
  }

  /** The epoch whose window holds time `t` on a known network. */
  function EpochAt(networkId: int, t: int): (epoch: int)
    requires IsKnownNetwork(networkId)
    ensures InEpoch(GetEpochDetails(networkId, epoch), t)
  {
    var offset := t - EPOCH_START[networkId];
    var epoch := offset / WEEK;
    assert offset == WEEK * epoch + offset % WEEK;
    epoch
  }

  /**
   * On a known network the epoch windows tile the time line: every instant
   * lies in exactly one of them, the one `EpochAt` names.
   */
  lemma EpochsTileTime(networkId: int, t: int, epoch: int)
    requires IsKnownNetwork(networkId)
    ensures InEpoch(GetEpochDetails(networkId, epoch), t) <==> epoch == EpochAt(networkId, t)
  {
  }
}
