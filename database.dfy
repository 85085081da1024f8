/** The balance store: one record per payout address, a missing address reading as a
    zero balance. */
module Database {
  /** A stored record; balances are arbitrary-precision integers. */
  datatype Account = Account(balance: int)

  type Ledger = map<string, Account>

  const Fresh: Account := Account(0)

  /** `getMiner`: the stored record, or a fresh zero-balance record. */
  function Lookup(ledger: Ledger, address: string): (r: Account)
    ensures address !in ledger ==> r.balance == 0
    ensures address in ledger ==> r == ledger[address]
  {
    if address in ledger then ledger[address] else Fresh
  }

  function Balance(ledger: Ledger, address: string): int
  {
    Lookup(ledger, address).balance
  }

  /** `addBalance`: the address's balance moves by `delta` (from zero when absent) and
      no other address changes. */
  function Credited(ledger: Ledger, address: string, delta: int): (r: Ledger)
    ensures forall a {:trigger a in r} :: a in r <==> a in ledger || a == address
    ensures Balance(r, address) == Balance(ledger, address) + delta
    ensures forall a {:trigger Balance(r, a)} | a != address :: Balance(r, a) == Balance(ledger, a)
  {
    var account := Lookup(ledger, address);
    ledger[address := account.(balance := account.balance + delta)]
  }

  /** Crediting the negated balance leaves the address at zero: the reset the reward
      ledger performs before a payout. */
  lemma ResetToZero(ledger: Ledger, address: string)
    ensures Balance(Credited(ledger, address, -Balance(ledger, address)), address) == 0
  {
  }

  /** Two credits to one address act as one credit of their sum. */
  lemma CreditsAdd(ledger: Ledger, address: string, x: int, y: int)
    ensures Credited(Credited(ledger, address, x), address, y) == Credited(ledger, address, x + y)
  {
    var once := Credited(ledger, address, x);
    assert Lookup(once, address) == Account(Balance(ledger, address) + x);
  }

  /** Nothing bounds a balance from below: a debit to an unknown address goes negative. */
  lemma NoLowerBound(address: string)
    ensures Balance(Credited(map[], address, -1), address) == -1
  {
  }

  /** The store object: its `miners` table, read and written one address at a time. */
  class Database {
    var miners: Ledger

    constructor ()
      ensures miners == map[]
    {
      miners := map[];
    }

    function GetMiner(address: string): (r: Account)
      reads this
      ensures r == Lookup(miners, address)
    {
      if address in miners then miners[address] else Fresh
    }

    /** The read-modify-write transaction of `addBalance`. */
    method AddBalance(address: string, delta: int)
      modifies this
      ensures miners == Credited(old(miners), address, delta)
    {
      var miner := GetMiner(address);
      miner := miner.(balance := miner.balance + delta);
      miners := miners[address := miner];
    }
  }
}
