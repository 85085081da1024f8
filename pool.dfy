// The pool's `record` handler: when the stratum finds a block, every share collected
// since the last block, plus the winning share, is recorded for that block's rewards.

module Pool {
  import opened OrderedMap
  import S = Stratum
  import R = Rewarding
  import T = Templates

  /** `record(hash, contribution)`: dump the stratum's shares, append the winning
      contribution, and record them all against the block. */
  function BlockRecorded(st: S.StratumState, p: R.Pending, hash: T.Hash, winner: S.Contribution)
    : (nat, S.StratumState, R.Pending)
  {
    var (dumped, st') := S.Drained(st);
    var (count, p') := R.Recorded(p, hash, dumped + [winner]);
    (count, st', p')
  }

  /** Recording a found block empties the stratum's share table, credits every address
      with the difficulty it submitted since the last block (the winner with its
      winning share too), stores the summed difficulty as the block's work, and counts
      the winner among the contributors. */
  lemma BlockRecordedCredits(st: S.StratumState, p: R.Pending, hash: T.Hash, winner: S.Contribution)
    ensures var (count, st', p') := BlockRecorded(st, p, hash, winner);
      var shares := Values(st.contributions);
      && st' == st.(contributions := Empty())
      && count == |R.Contributors(shares) + {winner.address}| && count >= 1
      && p'.rewards.items[hash].items.Keys == R.Contributors(shares) + {winner.address}
      && (forall a :: R.WorkOf(p'.rewards.items[hash], a)
                      == R.WorkBy(shares, a) + (if a == winner.address then winner.difficulty else 0.0))
      && p'.accumulatedWork.items[hash] == R.TotalWork(shares) + winner.difficulty
  {
    var shares := Values(st.contributions);
    var all := shares + [winner];
    R.RecordedMeaning(p, hash, all);
    assert all[..|all| - 1] == shares;
    assert winner.address in R.Contributors(shares) + {winner.address};
  }

  /** The part of the pool that `record` uses. */
  class Pool {
    const stratum: S.Stratum
    const rewarding: R.Rewarding

    constructor (stratum: S.Stratum, rewarding: R.Rewarding)
      ensures this.stratum == stratum && this.rewarding == rewarding
    {
      this.stratum := stratum;
      this.rewarding := rewarding;
    }

    /** The shares to be recorded all carry the connection's difficulty, which is
        positive. */
    method Record(hash: T.Hash, contribution: S.Contribution) returns (count: nat)
      requires stratum.Valid() && rewarding.Valid()
      requires forall v | v in Values(stratum.contributions) :: v.difficulty > 0.0
      requires contribution.difficulty > 0.0
      modifies stratum`contributions, rewarding`rewards, rewarding`accumulatedWork
      ensures stratum.Valid() && rewarding.Valid()
      ensures (count, stratum.State(), rewarding.Blocks())
              == BlockRecorded(old(stratum.State()), old(rewarding.Blocks()), hash, contribution)
    {
      var contributions := stratum.Dump();
      contributions := contributions + [contribution];
      count := rewarding.RecordContributions(hash, contributions);
    }
  }
}
