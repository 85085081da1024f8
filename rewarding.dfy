/** The reward ledger: work per address recorded for each found block, the queue of
    coinbase payments awaiting distribution, and the split of one payment across the
    contributors of the blocks it covers. Decimal amounts are exact reals. */
module Rewarding {
  import opened Wrappers
  import opened OrderedMap
  import DB = Database
  import S = Stratum
  import T = Templates

  /** Work per address, in first-contribution order. */
  type Work = OMap<string, real>

  function WorkOf(m: Work, address: string): real
  {
    if address in m.items then m.items[address] else 0.0
  }

  /** The sum of the values under `keys`, taken last key first. */
  function SumOver(keys: seq<string>, items: map<string, real>): real
    requires forall i | 0 <= i < |keys| :: keys[i] in items
  {
    if keys == [] then 0.0 else SumOver(keys[..|keys| - 1], items) + items[keys[|keys| - 1]]
  }

  function Total(m: Work): real
  {
    SumOver(m.keys, m.items)
  }

  /** Values of keys not listed do not count. */
  lemma {:induction false} SumOverFrame(keys: seq<string>, items: map<string, real>, k: string, v: real)
    requires forall i | 0 <= i < |keys| :: keys[i] in items
    requires k !in keys
    ensures SumOver(keys, items[k := v]) == SumOver(keys, items)
  {
    if keys != [] {
      SumOverFrame(keys[..|keys| - 1], items, k, v);
    }
  }

  /** Replacing one listed value moves the sum by the difference. */
  lemma {:induction false} SumOverUpdate(keys: seq<string>, items: map<string, real>, k: string, v: real)
    requires forall i | 0 <= i < |keys| :: keys[i] in items
    requires Distinct(keys)
    requires k in keys
    ensures SumOver(keys, items[k := v]) == SumOver(keys, items) - items[k] + v
  {
    var last := keys[|keys| - 1];
    var init := keys[..|keys| - 1];
    if last == k {
      assert k !in init by {
        forall i | 0 <= i < |init| ensures init[i] != k {
          DistinctAt(keys, i, |keys| - 1);
        }
      }
      SumOverFrame(init, items, k, v);
    } else {
      assert k in init by {
        var i :| 0 <= i < |keys| && keys[i] == k;
        assert i < |keys| - 1 && init[i] == k;
      }
      DistinctSlice(keys, 0, |keys| - 1);
      SumOverUpdate(init, items, k, v);
    }
  }

  /** `set(address, current + work)` on a work map. */
  function Added(m: Work, address: string, work: real): Work
  {
    Put(m, address, WorkOf(m, address) + work)
  }

  /** Adding work to one address moves that address's work by that amount and leaves
      every other address alone. */
  lemma AddedWork(m: Work, address: string, work: real)
    ensures var r := Added(m, address, work);
      && WorkOf(r, address) == WorkOf(m, address) + work
      && (forall a {:trigger WorkOf(r, a)} | a != address :: WorkOf(r, a) == WorkOf(m, a))
  {
  }

  /** Adding work to an address lists it. */
  lemma AddedKeys(m: Work, address: string, work: real)
    ensures Added(m, address, work).items.Keys == m.items.Keys + {address}
  {
  }

  /** Adding work to an address moves the summed work by the same amount. */
  lemma AddedTotal(m: Work, address: string, work: real)
    ensures Total(Added(m, address, work)) == Total(m) + work
  {
    var r := Added(m, address, work);
    if address in m.items {
      SumOverUpdate(m.keys, m.items, address, WorkOf(m, address) + work);
    } else {
      assert r.keys[..|r.keys| - 1] == m.keys;
      SumOverFrame(m.keys, m.items, address, work);
    }
  }

  /** Adding work to one address moves that address's work and the sum by the same
      amount, lists the address, and leaves every other address alone. */
  lemma AddedMeaning(m: Work, address: string, work: real)
    ensures var r := Added(m, address, work);
      && WorkOf(r, address) == WorkOf(m, address) + work
      && (forall a {:trigger WorkOf(r, a)} | a != address :: WorkOf(r, a) == WorkOf(m, a))
      && r.items.Keys == m.items.Keys + {address}
      && Total(r) == Total(m) + work
  {
    AddedWork(m, address, work);
    AddedKeys(m, address, work);
    AddedTotal(m, address, work);
  }

  /** The `reduce` of `recordContributions`: each address's summed difficulty. */
  function Aggregate(contributions: seq<S.Contribution>): Work
  {
    if contributions == [] then Empty()
    else
      var c := contributions[|contributions| - 1];
      Added(Aggregate(contributions[..|contributions| - 1]), c.address, c.difficulty)
  }

  /** The reduce's accumulator: the summed difficulty of all contributions. */
  function TotalWork(contributions: seq<S.Contribution>): real
  {
    if contributions == [] then 0.0
    else TotalWork(contributions[..|contributions| - 1]) + contributions[|contributions| - 1].difficulty
  }

  /** The summed difficulty of one address's contributions. */
  function WorkBy(contributions: seq<S.Contribution>, address: string): real
  {
    if contributions == [] then 0.0
    else
      var c := contributions[|contributions| - 1];
      WorkBy(contributions[..|contributions| - 1], address) + (if c.address == address then c.difficulty else 0.0)
  }

  /** The addresses that contributed. */
  function Contributors(contributions: seq<S.Contribution>): set<string>
  {
    if contributions == [] then {}
    else Contributors(contributions[..|contributions| - 1]) + {contributions[|contributions| - 1].address}
  }

  /** What `recordContributions` stores for a block: each address's work is the sum of
      its contributions. */
  lemma {:induction false} AggregateWork(contributions: seq<S.Contribution>)
    ensures forall a :: WorkOf(Aggregate(contributions), a) == WorkBy(contributions, a)
  {
    if contributions != [] {
      var init := contributions[..|contributions| - 1];
      var c := contributions[|contributions| - 1];
      AggregateWork(init);
      AddedMeaning(Aggregate(init), c.address, c.difficulty);
    }
  }

  /** The stored total is the sum of all difficulties, and equals the sum of the
      per-address work. */
  lemma {:induction false} AggregateTotal(contributions: seq<S.Contribution>)
    ensures Total(Aggregate(contributions)) == TotalWork(contributions)
  {
    if contributions != [] {
      var init := contributions[..|contributions| - 1];
      var c := contributions[|contributions| - 1];
      AggregateTotal(init);
      AddedMeaning(Aggregate(init), c.address, c.difficulty);
    }
  }

  /** Exactly the contributing addresses are listed, so the count `recordContributions`
      returns is the number of distinct addresses. */
  lemma {:induction false} AggregateContributors(contributions: seq<S.Contribution>)
    ensures Aggregate(contributions).items.Keys == Contributors(contributions)
    ensures |Aggregate(contributions).keys| == |Contributors(contributions)|
  {
    if contributions != [] {
      var init := contributions[..|contributions| - 1];
      var c := contributions[|contributions| - 1];
      AggregateContributors(init);
      AddedMeaning(Aggregate(init), c.address, c.difficulty);
    }
    SizeIsKeyCount(Aggregate(contributions));
  }

  /** Positive difficulties give positive work everywhere. */
  ghost predicate Positive(m: Work)
  {
    forall a | a in m.items :: m.items[a] > 0.0
  }

  lemma {:induction false} PositiveTotal(keys: seq<string>, items: map<string, real>)
    requires forall i | 0 <= i < |keys| :: keys[i] in items && items[keys[i]] > 0.0
    ensures keys != [] ==> SumOver(keys, items) > 0.0
    ensures SumOver(keys, items) >= 0.0
  {
    if keys != [] {
      PositiveTotal(keys[..|keys| - 1], items);
    }
  }

  /** With positive difficulties, every listed address has positive work. */
  lemma {:induction false} AggregatePositive(contributions: seq<S.Contribution>)
    requires forall i | 0 <= i < |contributions| :: contributions[i].difficulty > 0.0
    ensures Positive(Aggregate(contributions))
  {
    if contributions != [] {
      var init := contributions[..|contributions| - 1];
      var c := contributions[|contributions| - 1];
      assert forall i | 0 <= i < |init| :: init[i].difficulty > 0.0 by {
        forall i | 0 <= i < |init| ensures init[i].difficulty > 0.0 {
          assert init[i] == contributions[i];
        }
      }
      AggregatePositive(init);
      AddedMeaning(Aggregate(init), c.address, c.difficulty);
    }
  }

  /** The inner loop of `determinePayments`: a block's work merged into the contributors,
      in the block's address order. */
  function Merged(contributors: Work, keys: seq<string>, items: map<string, real>): Work
    requires forall i | 0 <= i < |keys| :: keys[i] in items
  {
    if keys == [] then contributors
    else Added(Merged(contributors, keys[..|keys| - 1], items), keys[|keys| - 1], items[keys[|keys| - 1]])
  }

  /** The last of distinct keys is not among the others. */
  lemma LastApart(keys: seq<string>)
    requires Distinct(keys) && keys != []
    ensures keys[|keys| - 1] !in keys[..|keys| - 1]
    ensures Distinct(keys[..|keys| - 1])
  {
    var init := keys[..|keys| - 1];
    DistinctSlice(keys, 0, |keys| - 1);
    forall i | 0 <= i < |init| ensures init[i] != keys[|keys| - 1] {
      DistinctAt(keys, i, |keys| - 1);
    }
  }

  /** Merging distinct addresses adds each one's work to the contributors. */
  lemma {:induction false} MergedWork(contributors: Work, keys: seq<string>, items: map<string, real>)
    requires forall i | 0 <= i < |keys| :: keys[i] in items
    requires Distinct(keys)
    ensures var r := Merged(contributors, keys, items);
      forall a {:trigger WorkOf(r, a)} :: WorkOf(r, a) == WorkOf(contributors, a) + (if a in keys then items[a] else 0.0)
  {
    if keys != [] {
      var init := keys[..|keys| - 1];
      var last := keys[|keys| - 1];
      var r := Merged(contributors, keys, items);
      LastApart(keys);
      MergedWork(contributors, init, items);
      AddedWork(Merged(contributors, init, items), last, items[last]);
      assert r == Added(Merged(contributors, init, items), last, items[last]);
      forall a ensures WorkOf(r, a) == WorkOf(contributors, a) + (if a in keys then items[a] else 0.0) {
        if a == last {
          assert a !in init;
        } else {
          assert a in keys <==> a in init;
        }
      }
    }
  }

  /** Merging addresses lists them among the contributors. */
  lemma {:induction false} MergedKeys(contributors: Work, keys: seq<string>, items: map<string, real>)
    requires forall i | 0 <= i < |keys| :: keys[i] in items
    ensures Merged(contributors, keys, items).items.Keys == contributors.items.Keys + (set a | a in keys)
  {
    if keys != [] {
      var init := keys[..|keys| - 1];
      var last := keys[|keys| - 1];
      assert (set a | a in keys) == (set a | a in init) + {last};
      MergedKeys(contributors, init, items);
      AddedKeys(Merged(contributors, init, items), last, items[last]);
    }
  }

  /** Merging addresses adds their summed work to the total. */
  lemma {:induction false} MergedTotal(contributors: Work, keys: seq<string>, items: map<string, real>)
    requires forall i | 0 <= i < |keys| :: keys[i] in items
    ensures Total(Merged(contributors, keys, items)) == Total(contributors) + SumOver(keys, items)
  {
    if keys != [] {
      var init := keys[..|keys| - 1];
      var last := keys[|keys| - 1];
      MergedTotal(contributors, init, items);
      AddedTotal(Merged(contributors, init, items), last, items[last]);
    }
  }

  /** One block's work merged into the contributors. */
  function Merge(contributors: Work, block: Work): Work
  {
    Merged(contributors, block.keys, block.items)
  }

  /** Merging a block adds its work address by address, lists its addresses, and adds
      its total. */
  lemma MergeMeaning(contributors: Work, block: Work)
    ensures var r := Merge(contributors, block);
      && (forall a {:trigger WorkOf(r, a)} :: WorkOf(r, a) == WorkOf(contributors, a) + WorkOf(block, a))
      && r.items.Keys == contributors.items.Keys + block.items.Keys
      && Total(r) == Total(contributors) + Total(block)
  {
    MergedWork(contributors, block.keys, block.items);
    MergedKeys(contributors, block.keys, block.items);
    MergedTotal(contributors, block.keys, block.items);
    assert (set a | a in block.keys) == block.items.Keys;
  }

  /** The color query's answer: blue only when the node says so; a failed query is not blue. */
  function IsBlue(color: Option<bool>): bool
  {
    color == Some(true)
  }

  /** Pending blocks: work per address, and the total, per block hash. */
  datatype Pending = Pending(rewards: OMap<T.Hash, Work>, accumulatedWork: OMap<T.Hash, real>)

  /** The two maps list the same blocks in the same order, each total is its block's
      summed work, and all work is positive. */
  ghost predicate Ledgered(p: Pending)
  {
    && p.rewards.keys == p.accumulatedWork.keys
    && (forall h | h in p.rewards.items :: Positive(p.rewards.items[h]) && p.accumulatedWork.items[h] == Total(p.rewards.items[h]))
  }

  /** `recordContributions(hash, contributions)` on the pending blocks. */
  function Recorded(p: Pending, hash: T.Hash, contributions: seq<S.Contribution>): (nat, Pending)
  {
    var miners := Aggregate(contributions);
    (|miners.keys|, Pending(Put(p.rewards, hash, miners), Put(p.accumulatedWork, hash, TotalWork(contributions))))
  }

  /** Recording a block lists it last (or in its old place when re-recorded) in both
      maps, stores each address's summed difficulty and the summed total, returns the
      number of distinct contributors, and leaves other blocks alone. */
  lemma RecordedMeaning(p: Pending, hash: T.Hash, contributions: seq<S.Contribution>)
    ensures var (count, r) := Recorded(p, hash, contributions);
      && count == |Contributors(contributions)|
      && r.rewards.keys == (if hash in p.rewards.items then p.rewards.keys else p.rewards.keys + [hash])
      && r.accumulatedWork.keys == (if hash in p.accumulatedWork.items then p.accumulatedWork.keys else p.accumulatedWork.keys + [hash])
      && r.rewards.items[hash].items.Keys == Contributors(contributions)
      && (forall a :: WorkOf(r.rewards.items[hash], a) == WorkBy(contributions, a))
      && r.accumulatedWork.items[hash] == TotalWork(contributions)
      && (forall h | h in p.rewards.items && h != hash :: r.rewards.items[h] == p.rewards.items[h])
  {
    AggregateContributors(contributions);
    AggregateWork(contributions);
  }

  /** Recording positive contributions keeps the pending blocks ledgered. */
  lemma RecordedLedgered(p: Pending, hash: T.Hash, contributions: seq<S.Contribution>)
    requires Ledgered(p)
    requires forall i | 0 <= i < |contributions| :: contributions[i].difficulty > 0.0
    ensures Ledgered(Recorded(p, hash, contributions).1)
  {
    AggregateTotal(contributions);
    AggregatePositive(contributions);
    assert hash in p.rewards.items <==> hash in p.accumulatedWork.items;
  }

  /** The state of the first loop of `determinePayments`. */
  datatype Scan = Scan(pending: Pending, contributors: Work, total: real)

  /** One round of the first loop: the oldest pending block is merged into the
      contributors, its total added, and both its entries deleted. */
  function Step(s: Scan): Scan
    requires s.pending.rewards.keys == s.pending.accumulatedWork.keys != []
  {
    var p := s.pending;
    var hash := p.rewards.keys[0];
    Scan(Pending(RemoveFirst(p.rewards), RemoveFirst(p.accumulatedWork)),
         Merge(s.contributors, p.rewards.items[hash]),
         s.total + p.accumulatedWork.items[hash])
  }

  /** The first loop: rounds until the pending blocks run out, ending after the first
      block the node reports blue, a failed query counting as not blue. */
  function Consumed(s: Scan, blue: T.Hash -> Option<bool>): Scan
    requires s.pending.rewards.keys == s.pending.accumulatedWork.keys
    decreases |s.pending.rewards.keys|
  {
    if s.pending.rewards.keys == [] then s
    else if IsBlue(blue(s.pending.rewards.keys[0])) then Step(s)
    else Consumed(Step(s), blue)
  }

  /** How many of the oldest blocks the first loop visits: up to and including the first
      blue one, or all of them. */
  function Visited(keys: seq<T.Hash>, blue: T.Hash -> Option<bool>): (k: nat)
    ensures k <= |keys| && (keys != [] ==> k >= 1)
    decreases |keys|
  {
    if keys == [] then 0
    else if IsBlue(blue(keys[0])) then 1
    else 1 + Visited(keys[1..], blue)
  }

  /** The visited blocks are all but the last one not blue, and the visit stops early
      only at a blue block. */
  lemma {:induction false} VisitedStopsAtBlue(keys: seq<T.Hash>, blue: T.Hash -> Option<bool>)
    ensures var k := Visited(keys, blue);
      && (forall i | 0 <= i < k - 1 :: !IsBlue(blue(keys[i])))
      && (k < |keys| ==> IsBlue(blue(keys[k - 1])))
    decreases |keys|
  {
    if keys != [] && !IsBlue(blue(keys[0])) {
      VisitedStopsAtBlue(keys[1..], blue);
      var k := Visited(keys, blue);
      assert forall i | 1 <= i < k - 1 :: keys[i] == keys[1..][i - 1];
    }
  }

  /** The first loop deletes exactly the visited blocks from both maps, oldest first. */
  lemma {:induction false} ConsumedRemaining(s: Scan, blue: T.Hash -> Option<bool>)
    requires s.pending.rewards.keys == s.pending.accumulatedWork.keys
    ensures var k := Visited(s.pending.rewards.keys, blue);
      Consumed(s, blue).pending == Pending(RemoveFirsts(s.pending.rewards, k), RemoveFirsts(s.pending.accumulatedWork, k))
    decreases |s.pending.rewards.keys|
  {
    var p := s.pending;
    if p.rewards.keys == [] {
      assert Visited(p.rewards.keys, blue) == 0;
    } else if IsBlue(blue(p.rewards.keys[0])) {
      assert Visited(p.rewards.keys, blue) == 1;
      RemoveFirstsUnfold(p.rewards, 1);
      RemoveFirstsUnfold(p.accumulatedWork, 1);
    } else {
      ConsumedRemaining(Step(s), blue);
      RemainingAfterStep(s, blue, Visited(Step(s).pending.rewards.keys, blue));
    }
  }

  /** A round on a block that is not blue leaves the first loop one block fewer to
      delete. */
  lemma RemainingAfterStep(s: Scan, blue: T.Hash -> Option<bool>, j: nat)
    requires s.pending.rewards.keys == s.pending.accumulatedWork.keys != []
    requires !IsBlue(blue(s.pending.rewards.keys[0]))
    requires j == Visited(Step(s).pending.rewards.keys, blue)
    requires Consumed(Step(s), blue).pending
      == Pending(RemoveFirsts(Step(s).pending.rewards, j), RemoveFirsts(Step(s).pending.accumulatedWork, j))
    ensures var k := Visited(s.pending.rewards.keys, blue);
      Consumed(s, blue).pending == Pending(RemoveFirsts(s.pending.rewards, k), RemoveFirsts(s.pending.accumulatedWork, k))
  {
    var p := s.pending;
    var next := Step(s).pending;
    assert next == Pending(RemoveFirst(p.rewards), RemoveFirst(p.accumulatedWork));
    assert Consumed(s, blue) == Consumed(Step(s), blue);
    assert next.rewards.keys == p.rewards.keys[1..];
    var k := Visited(p.rewards.keys, blue);
    assert k == j + 1;
    RemoveFirstsUnfold(p.rewards, k);
    RemoveFirstsUnfold(p.accumulatedWork, k);
  }

  /** A round keeps the pending blocks ledgered, and keeps the contributors positive
      with the gathered total as their summed work. */
  lemma StepLedgered(s: Scan)
    requires s.pending.rewards.keys != []
    requires Ledgered(s.pending) && Positive(s.contributors) && s.total == Total(s.contributors)
    ensures Ledgered(Step(s).pending) && Positive(Step(s).contributors) && Step(s).total == Total(Step(s).contributors)
  {
    var block := s.pending.rewards.items[s.pending.rewards.keys[0]];
    var merged := Step(s).contributors;
    MergeMeaning(s.contributors, block);
    forall a | a in merged.items ensures merged.items[a] > 0.0 {
      assert WorkOf(merged, a) == WorkOf(s.contributors, a) + WorkOf(block, a);
    }
  }

  /** The first loop keeps the pending blocks ledgered, and the contributors it gathers
      are positive with the gathered total as their summed work. */
  lemma {:induction false} ConsumedLedgered(s: Scan, blue: T.Hash -> Option<bool>)
    requires Ledgered(s.pending) && Positive(s.contributors) && s.total == Total(s.contributors)
    ensures var r := Consumed(s, blue);
      Ledgered(r.pending) && Positive(r.contributors) && r.total == Total(r.contributors)
    decreases |s.pending.rewards.keys|
  {
    if s.pending.rewards.keys != [] {
      StepLedgered(s);
      if !IsBlue(blue(s.pending.rewards.keys[0])) {
        ConsumedLedgered(Step(s), blue);
      }
    }
  }

  /** The first `k` pending blocks, oldest first. */
  function Oldest<V>(rewards: OMap<T.Hash, V>, k: nat): (r: seq<V>)
    requires k <= |rewards.keys|
    ensures |r| == k
    decreases k
  {
    if k == 0 then [] else [rewards.items[rewards.keys[0]]] + Oldest(RemoveFirst(rewards), k - 1)
  }

  /** An address's work summed over a run of blocks. */
  function BlocksWork(blocks: seq<Work>, address: string): real
  {
    if blocks == [] then 0.0 else WorkOf(blocks[0], address) + BlocksWork(blocks[1..], address)
  }

  /** Every address that appears in a run of blocks. */
  function BlocksKeys(blocks: seq<Work>): set<string>
  {
    if blocks == [] then {} else blocks[0].items.Keys + BlocksKeys(blocks[1..])
  }

  /** The total work of a run of blocks. */
  function BlocksTotal(blocks: seq<Work>): real
  {
    if blocks == [] then 0.0 else Total(blocks[0]) + BlocksTotal(blocks[1..])
  }

  /** The oldest blocks are the first one, then the oldest of the others. */
  lemma OldestFirst<V>(rewards: OMap<T.Hash, V>, k: nat)
    requires 1 <= k <= |rewards.keys|
    ensures Oldest(rewards, k) == [rewards.items[rewards.keys[0]]] + Oldest(RemoveFirst(rewards), k - 1)
  {
  }

  /** A scan whose first pending block is blue takes that block alone. */
  lemma ConsumedBlue(s: Scan, blue: T.Hash -> Option<bool>)
    requires s.pending.rewards.keys == s.pending.accumulatedWork.keys != []
    requires IsBlue(blue(s.pending.rewards.keys[0]))
    ensures Visited(s.pending.rewards.keys, blue) == 1 && Consumed(s, blue) == Step(s)
    ensures Oldest(Step(s).pending.rewards, Visited(s.pending.rewards.keys, blue) - 1) == []
  {
  }

  /** A scan whose first pending block is not blue takes it and goes on. */
  lemma ConsumedNotBlue(s: Scan, blue: T.Hash -> Option<bool>)
    requires s.pending.rewards.keys == s.pending.accumulatedWork.keys != []
    requires !IsBlue(blue(s.pending.rewards.keys[0]))
    ensures Visited(s.pending.rewards.keys, blue) - 1 == Visited(Step(s).pending.rewards.keys, blue)
    ensures Consumed(s, blue) == Consumed(Step(s), blue)
    ensures Oldest(Step(s).pending.rewards, Visited(s.pending.rewards.keys, blue) - 1)
      == Oldest(Step(s).pending.rewards, Visited(Step(s).pending.rewards.keys, blue))
  {
  }

  /** An address's work over a run of blocks is its work in the first, then in the others. */
  lemma BlocksWorkFirst(block: Work, rest: seq<Work>)
    ensures forall a {:trigger BlocksWork([block] + rest, a)} ::
      BlocksWork([block] + rest, a) == WorkOf(block, a) + BlocksWork(rest, a)
  {
    assert ([block] + rest)[1..] == rest;
  }

  /** The addresses of a run of blocks are those of the first and those of the others. */
  lemma BlocksKeysFirst(block: Work, rest: seq<Work>)
    ensures BlocksKeys([block] + rest) == block.items.Keys + BlocksKeys(rest)
  {
    assert ([block] + rest)[1..] == rest;
  }

  /** The total of a run of blocks is the first one's plus the others'. */
  lemma BlocksTotalFirst(block: Work, rest: seq<Work>)
    ensures BlocksTotal([block] + rest) == Total(block) + BlocksTotal(rest)
  {
    assert ([block] + rest)[1..] == rest;
  }

  /** A scan's first round, and the rounds after it when the block is not blue, take
      the oldest blocks. */
  lemma ConsumedSplit(s: Scan, blue: T.Hash -> Option<bool>)
    requires s.pending.rewards.keys == s.pending.accumulatedWork.keys != []
    ensures var rewards := s.pending.rewards;
      var k := Visited(rewards.keys, blue);
      var rest := Oldest(Step(s).pending.rewards, k - 1);
      && Oldest(rewards, k) == [rewards.items[rewards.keys[0]]] + rest
      && (IsBlue(blue(rewards.keys[0])) ==> rest == [] && Consumed(s, blue) == Step(s))
      && (!IsBlue(blue(rewards.keys[0])) ==>
            rest == Oldest(Step(s).pending.rewards, Visited(Step(s).pending.rewards.keys, blue))
            && Consumed(s, blue) == Consumed(Step(s), blue))
  {
    var rewards := s.pending.rewards;
    var k := Visited(rewards.keys, blue);
    var rest := Oldest(Step(s).pending.rewards, k - 1);
    assert Oldest(rewards, k) == [rewards.items[rewards.keys[0]]] + rest by {
      OldestFirst(rewards, k);
    }
    if IsBlue(blue(rewards.keys[0])) {
      ConsumedBlue(s, blue);
    } else {
      ConsumedNotBlue(s, blue);
    }
  }

  /** The first loop adds to each address the work it did in the blocks it consumes. */
  lemma {:induction false} ConsumedWork(s: Scan, blue: T.Hash -> Option<bool>)
    requires s.pending.rewards.keys == s.pending.accumulatedWork.keys
    ensures var r := Consumed(s, blue);
      var blocks := Oldest(s.pending.rewards, Visited(s.pending.rewards.keys, blue));
      forall a {:trigger WorkOf(r.contributors, a)} ::
        WorkOf(r.contributors, a) == WorkOf(s.contributors, a) + BlocksWork(blocks, a)
    decreases |s.pending.rewards.keys|
  {
    if s.pending.rewards.keys != [] {
      var rewards := s.pending.rewards;
      var block := rewards.items[rewards.keys[0]];
      var rest := Oldest(Step(s).pending.rewards, Visited(rewards.keys, blue) - 1);
      var r := Consumed(s, blue);
      ConsumedSplit(s, blue);
      BlocksWorkFirst(block, rest);
      assert forall a {:trigger WorkOf(r.contributors, a)} ::
        WorkOf(r.contributors, a) == WorkOf(Step(s).contributors, a) + BlocksWork(rest, a) by {
        if !IsBlue(blue(rewards.keys[0])) {
          ConsumedWork(Step(s), blue);
        }
      }
      MergeMeaning(s.contributors, block);
    }
  }

  lemma UnionShift(consumed: set<string>, stepped: set<string>, first: set<string>, block: set<string>,
                   rest: set<string>, oldest: set<string>)
    requires consumed == stepped + rest && stepped == first + block && oldest == block + rest
    ensures consumed == first + oldest
  {
  }

  /** The first loop adds to the contributors every address of the blocks it consumes. */
  lemma {:induction false} ConsumedKeys(s: Scan, blue: T.Hash -> Option<bool>)
    requires s.pending.rewards.keys == s.pending.accumulatedWork.keys
    ensures Consumed(s, blue).contributors.items.Keys
      == s.contributors.items.Keys + BlocksKeys(Oldest(s.pending.rewards, Visited(s.pending.rewards.keys, blue)))
    decreases |s.pending.rewards.keys|, 1
  {
    if s.pending.rewards.keys != [] {
      var rewards := s.pending.rewards;
      var block := rewards.items[rewards.keys[0]];
      var rest := Oldest(Step(s).pending.rewards, Visited(rewards.keys, blue) - 1);
      assert Consumed(s, blue).contributors.items.Keys == Step(s).contributors.items.Keys + BlocksKeys(rest) by {
        ConsumedKeysAfterStep(s, blue);
      }
      assert Step(s).contributors.items.Keys == s.contributors.items.Keys + block.items.Keys by {
        MergeMeaning(s.contributors, block);
      }
      assert BlocksKeys(Oldest(rewards, Visited(rewards.keys, blue))) == block.items.Keys + BlocksKeys(rest) by {
        ConsumedSplit(s, blue);
        BlocksKeysFirst(block, rest);
      }
      UnionShift(Consumed(s, blue).contributors.items.Keys, Step(s).contributors.items.Keys,
                 s.contributors.items.Keys, block.items.Keys, BlocksKeys(rest),
                 BlocksKeys(Oldest(rewards, Visited(rewards.keys, blue))));
    }
  }

  /** After its first round, the first loop adds the addresses of the other blocks it
      consumes. */
  lemma {:induction false} ConsumedKeysAfterStep(s: Scan, blue: T.Hash -> Option<bool>)
    requires s.pending.rewards.keys == s.pending.accumulatedWork.keys != []
    ensures Consumed(s, blue).contributors.items.Keys
      == Step(s).contributors.items.Keys + BlocksKeys(Oldest(Step(s).pending.rewards, Visited(s.pending.rewards.keys, blue) - 1))
    decreases |s.pending.rewards.keys|, 0
  {
    if IsBlue(blue(s.pending.rewards.keys[0])) {
      ConsumedKeysBlue(s, blue);
    } else {
      ConsumedNotBlue(s, blue);
      ConsumedKeys(Step(s), blue);
    }
  }

  /** A blue first block is the only one the first loop consumes. */
  lemma ConsumedKeysBlue(s: Scan, blue: T.Hash -> Option<bool>)
    requires s.pending.rewards.keys == s.pending.accumulatedWork.keys != []
    requires IsBlue(blue(s.pending.rewards.keys[0]))
    ensures Consumed(s, blue).contributors.items.Keys
      == Step(s).contributors.items.Keys + BlocksKeys(Oldest(Step(s).pending.rewards, Visited(s.pending.rewards.keys, blue) - 1))
  {
    ConsumedBlue(s, blue);
  }

  /** The first loop adds to the contributors' summed work the total of the blocks it
      consumes. */
  lemma {:induction false} ConsumedTotal(s: Scan, blue: T.Hash -> Option<bool>)
    requires s.pending.rewards.keys == s.pending.accumulatedWork.keys
    ensures Total(Consumed(s, blue).contributors)
      == Total(s.contributors) + BlocksTotal(Oldest(s.pending.rewards, Visited(s.pending.rewards.keys, blue)))
    decreases |s.pending.rewards.keys|
  {
    if s.pending.rewards.keys != [] {
      var rewards := s.pending.rewards;
      var block := rewards.items[rewards.keys[0]];
      var rest := Oldest(Step(s).pending.rewards, Visited(rewards.keys, blue) - 1);
      ConsumedSplit(s, blue);
      BlocksTotalFirst(block, rest);
      assert Total(Consumed(s, blue).contributors) == Total(Step(s).contributors) + BlocksTotal(rest) by {
        if !IsBlue(blue(rewards.keys[0])) {
          ConsumedTotal(Step(s), blue);
        }
      }
      MergeMeaning(s.contributors, block);
    }
  }

  /** One payout of the distribution. */
  datatype Payout = Payout(address: string, amount: int)

  /** decimal.js `toFixed(0)` under its default rounding mode: to the nearest integer,
      halves going away from zero. */
  function Round(x: real): (r: int)
    ensures x - 0.5 <= r as real <= x + 0.5
    ensures r as real == x + 0.5 ==> x > 0.0
    ensures r as real == x - 0.5 ==> x < 0.0
  {
    if x >= 0.0 then (x + 0.5).Floor else -((-x + 0.5).Floor)
  }

  /** Halves round away from zero; this is not truncation. */
  lemma RoundExamples()
    ensures Round(2.5) == 3 && Round(2.4) == 2 && Round(-2.5) == -3 && Round(0.7) == 1
  {
  }

  /** Each address's share of `amount`: its fraction of the total work; an address
      that did no work has no share. */
  function Shares(contributors: Work, total: real, amount: int): string -> real
    requires contributors.keys != [] ==> total != 0.0
  {
    a => if a in contributors.items then contributors.items[a] / total * amount as real else 0.0
  }

  /** One miner of the second loop of `determinePayments`: when its balance plus share
      passes the threshold, the balance is reset to zero and the rounded sum is paid;
      otherwise its balance grows by the rounded share. */
  function Paid(address: string, share: string -> real, threshold: real, ledger: DB.Ledger)
    : (DB.Ledger, seq<Payout>)
  {
    var balance := DB.Balance(ledger, address);
    var newBalance := share(address) + balance as real;
    if newBalance > threshold then (DB.Credited(ledger, address, -balance), [Payout(address, Round(newBalance))])
    else (DB.Credited(ledger, address, Round(share(address))), [])
  }

  /** The threshold rule on one miner: paid miners are reset to zero and paid their
      rounded balance plus share, the others are credited their rounded share, and no
      other balance changes. */
  lemma PaidMeaning(address: string, share: string -> real, threshold: real, ledger: DB.Ledger)
    ensures var (ledger', payouts) := Paid(address, share, threshold, ledger);
      var newBalance := share(address) + DB.Balance(ledger, address) as real;
      && (newBalance > threshold ==>
            DB.Balance(ledger', address) == 0 && payouts == [Payout(address, Round(newBalance))])
      && (newBalance <= threshold ==>
            DB.Balance(ledger', address) == DB.Balance(ledger, address) + Round(share(address)) && payouts == [])
      && (forall a {:trigger DB.Balance(ledger', a)} | a != address :: DB.Balance(ledger', a) == DB.Balance(ledger, a))
  {
  }

  /** The second loop of `determinePayments`, over the contributors in order. */
  function Settled(keys: seq<string>, share: string -> real, threshold: real, ledger: DB.Ledger)
    : (r: (DB.Ledger, seq<Payout>))
    decreases |keys|
  {
    if keys == [] then (ledger, [])
    else
      var first := Paid(keys[0], share, threshold, ledger);
      var rest := Settled(keys[1..], share, threshold, first.0);
      (rest.0, first.1 + rest.1)
  }

  /** Settling from position `i` is paying the miner there, then settling the rest. */
  lemma SettledFrom(keys: seq<string>, i: nat, share: string -> real, threshold: real, ledger: DB.Ledger)
    requires i < |keys|
    ensures var first := Paid(keys[i], share, threshold, ledger);
      var rest := Settled(keys[i + 1..], share, threshold, first.0);
      Settled(keys[i..], share, threshold, ledger) == (rest.0, first.1 + rest.1)
  {
    assert keys[i..][1..] == keys[i + 1..];
  }

  /** One step of the settling loop: if the payouts so far plus settling from `i` give
      `settled`, then paying the miner at `i` and settling from `i + 1` give it too. */
  lemma SettledStep(keys: seq<string>, i: nat, share: string -> real, threshold: real, ledger: DB.Ledger,
                    before: seq<Payout>, settled: (DB.Ledger, seq<Payout>))
    requires i < |keys|
    requires Settled(keys[i..], share, threshold, ledger).0 == settled.0
    requires before + Settled(keys[i..], share, threshold, ledger).1 == settled.1
    ensures var paid := Paid(keys[i], share, threshold, ledger);
      var rest := Settled(keys[i + 1..], share, threshold, paid.0);
      rest.0 == settled.0 && (before + paid.1) + rest.1 == settled.1
  {
    SettledFrom(keys, i, share, threshold, ledger);
    var paid := Paid(keys[i], share, threshold, ledger);
    var rest := Settled(keys[i + 1..], share, threshold, paid.0);
    assert (before + paid.1) + rest.1 == before + (paid.1 + rest.1);
  }

  /** Addresses not listed keep their balances and are never paid. */
  lemma {:induction false} SettledUnlisted(keys: seq<string>, share: string -> real, threshold: real, ledger: DB.Ledger, a: string)
    requires a !in keys
    ensures DB.Balance(Settled(keys, share, threshold, ledger).0, a) == DB.Balance(ledger, a)
    ensures forall p | p in Settled(keys, share, threshold, ledger).1 :: p.address != a
    decreases |keys|
  {
    if keys != [] {
      PaidMeaning(keys[0], share, threshold, ledger);
      SettledUnlisted(keys[1..], share, threshold, Paid(keys[0], share, threshold, ledger).0, a);
    }
  }

  /** The listed address that comes first is settled first; the ones after it are
      distinct from it. */
  lemma SettledFirst(keys: seq<string>, a: string)
    requires Distinct(keys) && keys != []
    ensures keys[0] == a ==> a !in keys[1..]
    ensures Distinct(keys[1..])
  {
    var rest := keys[1..];
    if keys[0] == a {
      forall i | 0 <= i < |rest| ensures rest[i] != a {
        DistinctAt(keys, 0, i + 1);
      }
    }
    DistinctSlice(keys, 1, |keys|);
    assert keys[1..|keys|] == rest;
  }

  /** The threshold rule for one listed address (the listed addresses being distinct),
      strictly above the threshold: its stored balance becomes zero and a payout of the
      rounded balance plus share is made. */
  lemma {:induction false} SettledPaid(keys: seq<string>, share: string -> real, threshold: real, ledger: DB.Ledger, a: string)
    requires Distinct(keys) && a in keys
    requires share(a) + DB.Balance(ledger, a) as real > threshold
    ensures var (ledger', payouts) := Settled(keys, share, threshold, ledger);
      DB.Balance(ledger', a) == 0 && Payout(a, Round(share(a) + DB.Balance(ledger, a) as real)) in payouts
    decreases |keys|
  {
    var first := Paid(keys[0], share, threshold, ledger);
    var rest := Settled(keys[1..], share, threshold, first.0);
    PaidMeaning(keys[0], share, threshold, ledger);
    SettledFirst(keys, a);
    if keys[0] == a {
      SettledUnlisted(keys[1..], share, threshold, first.0, a);
      assert first.1 + rest.1 == [Payout(a, Round(share(a) + DB.Balance(ledger, a) as real))] + rest.1;
    } else {
      SettledPaid(keys[1..], share, threshold, first.0, a);
    }
  }

  /** The threshold rule for one listed address (the listed addresses being distinct),
      at or below the threshold: its balance grows by the rounded share and it is not
      paid. */
  lemma {:induction false} SettledCredited(keys: seq<string>, share: string -> real, threshold: real, ledger: DB.Ledger, a: string)
    requires Distinct(keys) && a in keys
    requires share(a) + DB.Balance(ledger, a) as real <= threshold
    ensures var (ledger', payouts) := Settled(keys, share, threshold, ledger);
      && DB.Balance(ledger', a) == DB.Balance(ledger, a) + Round(share(a))
      && forall p | p in payouts :: p.address != a
    decreases |keys|
  {
    var first := Paid(keys[0], share, threshold, ledger);
    PaidMeaning(keys[0], share, threshold, ledger);
    SettledFirst(keys, a);
    if keys[0] == a {
      SettledUnlisted(keys[1..], share, threshold, first.0, a);
    } else {
      SettledCredited(keys[1..], share, threshold, first.0, a);
    }
  }

  /** The sum of the shares of the listed addresses. */
  function SumShares(keys: seq<string>, share: string -> real): real
  {
    if keys == [] then 0.0 else SumShares(keys[..|keys| - 1], share) + share(keys[|keys| - 1])
  }

  lemma {:induction false} SumSharesScaled(keys: seq<string>, contributors: Work, total: real, amount: int)
    requires total != 0.0
    requires forall i | 0 <= i < |keys| :: keys[i] in contributors.items
    ensures SumShares(keys, Shares(contributors, total, amount)) == SumOver(keys, contributors.items) / total * amount as real
  {
    if keys != [] {
      var init := keys[..|keys| - 1];
      SumSharesScaled(init, contributors, total, amount);
      var x := SumOver(init, contributors.items);
      var y := contributors.items[keys[|keys| - 1]];
      assert (x + y) / total == x / total + y / total;
      assert (x / total + y / total) * amount as real == x / total * amount as real + y / total * amount as real;
    }
  }

  /** Before rounding, the contributors' shares add up to the amount being paid. */
  lemma SharesSumToAmount(contributors: Work, amount: int)
    requires Total(contributors) > 0.0
    ensures SumShares(contributors.keys, Shares(contributors, Total(contributors), amount)) == amount as real
  {
    SumSharesScaled(contributors.keys, contributors, Total(contributors), amount);
  }

  /** The outcome of `determinePayments`. */
  datatype Determination = Determination(contributors: nat, payouts: seq<Payout>, pending: Pending, ledger: DB.Ledger)

  /** `determinePayments(amount)`: both loops, starting from no contributors and zero
      work. */
  function Determined(p: Pending, ledger: DB.Ledger, amount: int, threshold: real, blue: T.Hash -> Option<bool>): Determination
    requires Ledgered(p)
  {
    var scan := Consumed(Scan(p, Empty(), 0.0), blue);
    var settled := Settled(scan.contributors.keys, Offered(p, amount, blue), threshold, ledger);
    Determination(|scan.contributors.keys|, settled.1, scan.pending, settled.0)
  }

  /** The share of `amount` each address is offered by a determination. */
  function Offered(p: Pending, amount: int, blue: T.Hash -> Option<bool>): string -> real
    requires Ledgered(p)
  {
    var scan := Consumed(Scan(p, Empty(), 0.0), blue);
    ConsumedLedgered(Scan(p, Empty(), 0.0), blue);
    PositiveTotal(scan.contributors.keys, scan.contributors.items);
    Shares(scan.contributors, scan.total, amount)
  }

  /** A determination consumes the oldest blocks up to the first blue one, from both
      maps, and keeps the rest ledgered. */
  lemma DeterminedRemaining(p: Pending, ledger: DB.Ledger, amount: int, threshold: real, blue: T.Hash -> Option<bool>)
    requires Ledgered(p)
    ensures var r := Determined(p, ledger, amount, threshold, blue);
      var k := Visited(p.rewards.keys, blue);
      && Ledgered(r.pending)
      && r.pending.rewards.keys == r.pending.accumulatedWork.keys == p.rewards.keys[k..]
  {
    var s := Scan(p, Empty(), 0.0);
    ConsumedLedgered(s, blue);
    ConsumedRemaining(s, blue);
  }

  /** A determination reports the number of distinct addresses in the blocks it
      consumes, and their shares, before rounding, add up to the amount being paid. */
  lemma DeterminedShares(p: Pending, ledger: DB.Ledger, amount: int, threshold: real, blue: T.Hash -> Option<bool>)
    requires Ledgered(p)
    ensures var r := Determined(p, ledger, amount, threshold, blue);
      var blocks := Oldest(p.rewards, Visited(p.rewards.keys, blue));
      var scan := Consumed(Scan(p, Empty(), 0.0), blue);
      && r.contributors == |BlocksKeys(blocks)|
      && (r.contributors > 0 ==>
            scan.total > 0.0 && SumShares(scan.contributors.keys, Shares(scan.contributors, scan.total, amount)) == amount as real)
  {
    var scan := Consumed(Scan(p, Empty(), 0.0), blue);
    ConsumedLedgered(Scan(p, Empty(), 0.0), blue);
    ConsumedKeys(Scan(p, Empty(), 0.0), blue);
    SizeIsKeyCount(scan.contributors);
    PositiveTotal(scan.contributors.keys, scan.contributors.items);
    if scan.contributors.keys != [] {
      SharesSumToAmount(scan.contributors, amount);
    }
  }

  /** A share of `amount` in proportion `work / total`. */
  function Fraction(work: real, total: real, amount: int): real
    requires total != 0.0
  {
    work / total * amount as real
  }

  /** An address's share, read off the contributors. */
  lemma SharesAt(contributors: Work, total: real, amount: int, a: string)
    requires contributors.keys != [] ==> total != 0.0
    requires a in contributors.items ==> total != 0.0
    ensures Shares(contributors, total, amount)(a)
      == if a in contributors.items then Fraction(contributors.items[a], total, amount) else 0.0
  {
  }

  /** The offered shares are those of the first loop's contributors. */
  lemma OfferedOf(p: Pending, amount: int, blue: T.Hash -> Option<bool>)
    requires Ledgered(p)
    ensures var r := Consumed(Scan(p, Empty(), 0.0), blue);
      && (r.contributors.keys != [] ==> r.total != 0.0)
      && Offered(p, amount, blue) == Shares(r.contributors, r.total, amount)
  {
    var r := Consumed(Scan(p, Empty(), 0.0), blue);
    ConsumedLedgered(Scan(p, Empty(), 0.0), blue);
    PositiveTotal(r.contributors.keys, r.contributors.items);
  }

  /** From an empty start, the first loop's contributors are exactly the addresses of
      the consumed blocks, with their work there, and its total is theirs. */
  lemma ConsumedFromEmpty(p: Pending, blue: T.Hash -> Option<bool>)
    requires Ledgered(p)
    ensures var r := Consumed(Scan(p, Empty(), 0.0), blue);
      var blocks := Oldest(p.rewards, Visited(p.rewards.keys, blue));
      && r.contributors.items.Keys == BlocksKeys(blocks)
      && r.total == BlocksTotal(blocks)
      && (BlocksKeys(blocks) != {} ==> r.total > 0.0)
  {
    var s := Scan(p, Empty(), 0.0);
    var r := Consumed(s, blue);
    assert Positive(r.contributors) && r.total == Total(r.contributors) by {
      ConsumedLedgered(s, blue);
    }
    ConsumedKeys(s, blue);
    ConsumedTotal(s, blue);
    PositiveTotal(r.contributors.keys, r.contributors.items);
  }

  /** One address's offer: its work in the consumed blocks over their total work,
      times the amount, or nothing when it did no work there. */
  lemma OfferedAt(p: Pending, amount: int, blue: T.Hash -> Option<bool>, a: string)
    requires Ledgered(p)
    ensures var blocks := Oldest(p.rewards, Visited(p.rewards.keys, blue));
      && (a in BlocksKeys(blocks) ==> BlocksTotal(blocks) > 0.0)
      && Offered(p, amount, blue)(a)
        == (if a in BlocksKeys(blocks) then Fraction(BlocksWork(blocks, a), BlocksTotal(blocks), amount) else 0.0)
  {
    var s := Scan(p, Empty(), 0.0);
    var r := Consumed(s, blue);
    var blocks := Oldest(p.rewards, Visited(p.rewards.keys, blue));
    ConsumedFromEmpty(p, blue);
    OfferedOf(p, amount, blue);
    assert WorkOf(r.contributors, a) == BlocksWork(blocks, a) by {
      ConsumedWork(s, blue);
    }
    SharesAt(r.contributors, r.total, amount, a);
  }

  /** Each address is offered its work in the consumed blocks over their total work,
      times the amount; an address that did no work there is offered nothing. */
  lemma DeterminedShareOf(p: Pending, amount: int, blue: T.Hash -> Option<bool>)
    requires Ledgered(p)
    ensures var blocks := Oldest(p.rewards, Visited(p.rewards.keys, blue));
      && (BlocksKeys(blocks) != {} ==> BlocksTotal(blocks) > 0.0)
      && (forall a :: Offered(p, amount, blue)(a)
            == (if a in BlocksKeys(blocks) then Fraction(BlocksWork(blocks, a), BlocksTotal(blocks), amount) else 0.0))
  {
    ConsumedFromEmpty(p, blue);
    forall a
      ensures var blocks := Oldest(p.rewards, Visited(p.rewards.keys, blue));
        Offered(p, amount, blue)(a)
          == (if a in BlocksKeys(blocks) then Fraction(BlocksWork(blocks, a), BlocksTotal(blocks), amount) else 0.0)
    {
      OfferedAt(p, amount, blue, a);
    }
  }

  /** A payment request: the amount and the callback it reports to. */
  datatype Payment = Payment(amount: int, callback: nat)

  /** The request queue, the request being resolved, and the callbacks invoked so far. */
  datatype Queue = Queue(payments: seq<Payment>, current: Option<Payment>, invoked: seq<nat>)

  function Callbacks(payments: seq<Payment>): (r: seq<nat>)
    ensures |r| == |payments| && forall i | 0 <= i < |r| :: r[i] == payments[i].callback
  {
    if payments == [] then [] else Callbacks(payments[..|payments| - 1]) + [payments[|payments| - 1].callback]
  }

  /** Callbacks still owed: the queued ones and the one being resolved. */
  function Owed(q: Queue): multiset<nat>
  {
    multiset(Callbacks(q.payments)) + (if q.current.Some? then multiset{q.current.value.callback} else multiset{})
  }

  /** With nothing being resolved, nothing is queued. */
  ghost predicate Idle(q: Queue)
  {
    q.current.None? ==> q.payments == []
  }

  /** `processPayments`: unless a request is being resolved or none is queued, the most
      recent request is taken off the end of the queue. */
  function Started(q: Queue): (r: Queue)
    ensures q.current.Some? || q.payments == [] ==> r == q
    ensures q.current.None? && q.payments != [] ==>
      r == Queue(q.payments[..|q.payments| - 1], Some(q.payments[|q.payments| - 1]), q.invoked)
    ensures Owed(r) == Owed(q) && r.invoked == q.invoked
    ensures Idle(r)
  {
    if q.current.Some? || q.payments == [] then q
    else
      var n := |q.payments|;
      assert q.payments == q.payments[..n - 1] + [q.payments[n - 1]];
      Queue(q.payments[..n - 1], Some(q.payments[n - 1]), q.invoked)
  }

  /** `recordPayment`: the request is queued and processing is attempted. While a
      request is being resolved, the new one only waits. */
  function Pushed(q: Queue, payment: Payment): (r: Queue)
    ensures Owed(r) == Owed(q) + multiset{payment.callback} && r.invoked == q.invoked
    ensures q.current.Some? ==> r.current == q.current && r.payments == q.payments + [payment]
    ensures Idle(r)
  {
    Started(q.(payments := q.payments + [payment]))
  }

  /** The end of `processPayments` for the request being resolved: its callback is
      invoked, processing is cleared, and the next request starts. */
  function Completed(q: Queue): (r: Queue)
    requires q.current.Some?
    ensures r.invoked == q.invoked + [q.current.value.callback]
    ensures Owed(r) + multiset{q.current.value.callback} == Owed(q)
    ensures Idle(r)
  {
    Started(Queue(q.payments, None, q.invoked + [q.current.value.callback]))
  }

  /** Resolving until nothing is left. */
  function Drained(q: Queue): Queue
    requires Idle(q)
    decreases |q.payments| + (if q.current.Some? then 1 else 0)
  {
    if q.current.None? then q else Drained(Completed(q))
  }

  /** Draining leaves nothing queued and nothing being resolved. */
  lemma {:induction false} DrainedEmpties(q: Queue)
    requires Idle(q)
    ensures Drained(q).current.None? && Drained(q).payments == []
    decreases |q.payments| + (if q.current.Some? then 1 else 0)
  {
    if q.current.Some? {
      DrainedEmpties(Completed(q));
    }
  }

  /** Every queued request's callback is invoked exactly once: once the queue has been
      drained, the invoked callbacks are those invoked before plus all that were owed. */
  lemma {:induction false} DrainedInvokesAll(q: Queue)
    requires Idle(q)
    ensures multiset(Drained(q).invoked) == multiset(q.invoked) + Owed(q)
    decreases |q.payments| + (if q.current.Some? then 1 else 0)
  {
    if q.current.Some? {
      var next := Completed(q);
      DrainedInvokesAll(next);
      assert multiset(next.invoked) == multiset(q.invoked) + multiset{q.current.value.callback};
    }
  }

  /** One more contribution, as the `reduce` sees it. */
  lemma AggregateStep(contributions: seq<S.Contribution>, i: nat)
    requires i < |contributions|
    ensures Aggregate(contributions[..i + 1])
      == Added(Aggregate(contributions[..i]), contributions[i].address, contributions[i].difficulty)
    ensures TotalWork(contributions[..i + 1]) == TotalWork(contributions[..i]) + contributions[i].difficulty
  {
    assert contributions[..i + 1][..i] == contributions[..i];
  }

  /** The `reduce` loop of `recordContributions`: the work map and the accumulated
      total, built contribution by contribution. */
  method Tally(contributions: seq<S.Contribution>) returns (miners: Work, totalWork: real)
    ensures miners == Aggregate(contributions) && totalWork == TotalWork(contributions)
  {
    miners := Empty();
    totalWork := 0.0;
    var i := 0;
    while i < |contributions|
      invariant 0 <= i <= |contributions|
      invariant miners == Aggregate(contributions[..i]) && totalWork == TotalWork(contributions[..i])
    {
      var c := contributions[i];
      miners := Added(miners, c.address, c.difficulty);
      totalWork := totalWork + c.difficulty;
      AggregateStep(contributions, i);
      i := i + 1;
    }
    assert contributions[..i] == contributions;
  }

  /** One more address of a block, as the inner loop of `determinePayments` sees it. */
  lemma MergedStep(contributors: Work, keys: seq<string>, items: map<string, real>, j: nat)
    requires forall i | 0 <= i < |keys| :: keys[i] in items
    requires j < |keys|
    ensures Merged(contributors, keys[..j + 1], items)
      == Added(Merged(contributors, keys[..j], items), keys[j], items[keys[j]])
  {
    assert keys[..j + 1][..j] == keys[..j];
  }

  /** The inner loop of `determinePayments`: one block's work added to the
      contributors, address by address. */
  method MergeBlock(contributors: Work, block: Work) returns (r: Work)
    ensures r == Merge(contributors, block)
  {
    r := contributors;
    var j := 0;
    while j < |block.keys|
      invariant 0 <= j <= |block.keys|
      invariant r == Merged(contributors, block.keys[..j], block.items)
    {
      var address := block.keys[j];
      r := Added(r, address, block.items[address]);
      MergedStep(contributors, block.keys, block.items, j);
      j := j + 1;
    }
    assert block.keys[..j] == block.keys;
  }

  /** The ledger object: pending blocks, the payment queue, and the balance store it
      credits. `current` is the request `processPayments` popped and is resolving. */
  class Rewarding {
    const database: DB.Database
    const paymentThreshold: real
    var rewards: OMap<T.Hash, Work>
    var accumulatedWork: OMap<T.Hash, real>
    var payments: seq<Payment>
    var processing: bool
    var current: Option<Payment>
    ghost var invoked: seq<nat>

    function Blocks(): Pending
      reads this`rewards, this`accumulatedWork
    {
      Pending(rewards, accumulatedWork)
    }

    ghost function Requests(): Queue
      reads this`payments, this`current, this`invoked
    {
      Queue(payments, current, invoked)
    }

    ghost predicate Valid()
      reads this
    {
      Ledgered(Blocks()) && processing == current.Some? && Idle(Requests())
    }

    constructor (database: DB.Database, paymentThreshold: real)
      ensures Valid() && this.database == database && this.paymentThreshold == paymentThreshold
      ensures rewards.keys == [] && payments == [] && !processing && invoked == []
    {
      this.database := database;
      this.paymentThreshold := paymentThreshold;
      rewards := Empty();
      accumulatedWork := Empty();
      payments := [];
      processing := false;
      current := None;
      invoked := [];
    }

    /** `recordContributions(hash, contributions)`; difficulties are positive. */
    method RecordContributions(hash: T.Hash, contributions: seq<S.Contribution>) returns (count: nat)
      requires Valid() && forall i | 0 <= i < |contributions| :: contributions[i].difficulty > 0.0
      modifies this`rewards, this`accumulatedWork
      ensures Valid()
      ensures (count, Blocks()) == Recorded(old(Blocks()), hash, contributions)
      ensures Requests() == old(Requests())
    {
      RecordedLedgered(Blocks(), hash, contributions);
      var miners, totalWork := Tally(contributions);
      rewards := Put(rewards, hash, miners);
      accumulatedWork := Put(accumulatedWork, hash, totalWork);
      count := |miners.keys|;
    }

    /** `recordPayment(amount, callback)`. */
    method RecordPayment(payment: Payment)
      requires Valid()
      modifies this`payments, this`current, this`processing
      ensures Valid()
      ensures Requests() == Pushed(old(Requests()), payment)
      ensures Blocks() == old(Blocks())
    {
      payments := payments + [payment];
      ProcessPayments();
    }

    /** The synchronous start of `processPayments`. */
    method ProcessPayments()
      requires Ledgered(Blocks()) && processing == current.Some?
      modifies this`payments, this`current, this`processing
      ensures Valid()
      ensures Requests() == Started(old(Requests()))
      ensures Blocks() == old(Blocks())
    {
      if |payments| == 0 || processing {
        return;
      }
      processing := true;
      var payment := payments[|payments| - 1];
      payments := payments[..|payments| - 1];
      current := Some(payment);
    }

    /** The rest of `processPayments` once the colors are known: the popped request is
        determined, its callback invoked with the contributor count and payouts, and
        the next request started. */
    method CompletePayment(blue: T.Hash -> Option<bool>) returns (callback: nat, contributors: nat, payouts: seq<Payout>)
      requires Valid() && current.Some?
      modifies this, database
      ensures Valid()
      ensures Requests() == Completed(old(Requests())) && callback == old(current).value.callback
      ensures Determination(contributors, payouts, Blocks(), database.miners)
        == Determined(old(Blocks()), old(database.miners), old(current).value.amount, paymentThreshold, blue)
    {
      var payment := current.value;
      contributors, payouts := DeterminePayments(payment.amount, blue);
      callback := payment.callback;
      Resolve();
    }

    /** The request being resolved reports back: its callback is invoked, processing
        is cleared, and the next request starts. */
    method Resolve()
      requires Valid() && current.Some?
      modifies this`payments, this`current, this`processing, this`invoked
      ensures Valid()
      ensures Requests() == Completed(old(Requests()))
    {
      invoked := invoked + [current.value.callback];
      processing := false;
      current := None;
      ProcessPayments();
    }

    /** `determinePayments(amount)`. */
    method DeterminePayments(amount: int, blue: T.Hash -> Option<bool>) returns (count: nat, payouts: seq<Payout>)
      requires Ledgered(Blocks())
      modifies this`rewards, this`accumulatedWork, database
      ensures Ledgered(Blocks())
      ensures Requests() == old(Requests()) && processing == old(processing)
      ensures Determination(count, payouts, Blocks(), database.miners)
        == Determined(old(Blocks()), old(database.miners), amount, paymentThreshold, blue)
    {
      DeterminedRemaining(Blocks(), database.miners, amount, paymentThreshold, blue);
      ConsumedLedgered(Scan(Blocks(), Empty(), 0.0), blue);
      var contributors, accumulated := Gather(blue);
      PositiveTotal(contributors.keys, contributors.items);
      payouts := Settle(contributors.keys, Shares(contributors, accumulated, amount));
      count := |contributors.keys|;
    }

    /** The first loop of `determinePayments`: blocks are taken oldest first, their work
        merged and their totals summed, until one is blue. */
    method Gather(blue: T.Hash -> Option<bool>) returns (contributors: Work, accumulated: real)
      requires rewards.keys == accumulatedWork.keys
      modifies this`rewards, this`accumulatedWork
      ensures Scan(Blocks(), contributors, accumulated) == Consumed(Scan(old(Blocks()), Empty(), 0.0), blue)
    {
      ghost var scan := Consumed(Scan(Blocks(), Empty(), 0.0), blue);
      contributors := Empty();
      accumulated := 0.0;
      while |rewards.keys| > 0
        invariant rewards.keys == accumulatedWork.keys
        invariant Consumed(Scan(Blocks(), contributors, accumulated), blue) == scan
        decreases |rewards.keys|
      {
        ghost var before := Scan(Blocks(), contributors, accumulated);
        ghost var after := Step(before);
        var hash := rewards.keys[0];
        contributors := MergeBlock(contributors, rewards.items[hash]);
        assert contributors == after.contributors;
        accumulated := accumulated + accumulatedWork.items[hash];
        assert accumulated == after.total;
        rewards := RemoveFirst(rewards);
        accumulatedWork := RemoveFirst(accumulatedWork);
        assert Blocks() == after.pending;
        if IsBlue(blue(hash)) {
          ConsumedBlue(before, blue);
          break;
        }
        ConsumedNotBlue(before, blue);
      }
    }

    /** The second loop of `determinePayments`: each listed miner's balance is read and
        either reset with a payout or credited with the rounded share. */
    method Settle(keys: seq<string>, share: string -> real) returns (payouts: seq<Payout>)
      modifies database
      ensures (database.miners, payouts) == Settled(keys, share, paymentThreshold, old(database.miners))
    {
      ghost var settled := Settled(keys, share, paymentThreshold, database.miners);
      payouts := [];
      var i := 0;
      assert keys[0..] == keys;
      while i < |keys|
        invariant 0 <= i <= |keys|
        invariant var rest := Settled(keys[i..], share, paymentThreshold, database.miners);
          rest.0 == settled.0 && payouts + rest.1 == settled.1
      {
        var address := keys[i];
        ghost var before := payouts;
        ghost var paid := Paid(address, share, paymentThreshold, database.miners);
        SettledStep(keys, i, share, paymentThreshold, database.miners, before, settled);
        ghost var ledger := database.miners;
        var miner := database.GetMiner(address);
        var newBalance := share(address) + miner.balance as real;
        if newBalance > paymentThreshold {
          assert paid == (DB.Credited(ledger, address, -miner.balance), [Payout(address, Round(newBalance))]);
          database.AddBalance(address, -miner.balance);
          payouts := payouts + [Payout(address, Round(newBalance))];
        } else {
          assert paid == (DB.Credited(ledger, address, Round(share(address))), []);
          database.AddBalance(address, Round(share(address)));
          assert before + [] == before;
        }
        i := i + 1;
      }
      assert payouts + [] == payouts;
    }
  }
}
