/** The share-accounting side of the protocol server: who is subscribed to job
    notifications, which connections mine for which payout address, and the table of
    accepted shares keyed by nonce. Connections are identified by `SocketId`; the data
    the server attaches to each connection (`socket.data`) is kept in `sockets`. */
module Stratum {
  import opened Wrappers
  import opened OrderedMap
  import opened Protocol
  import Hex
  import T = Templates

  type SocketId = nat

  /** One accepted share: who mined it and at what difficulty. */
  datatype Contribution = Contribution(address: string, difficulty: real)

  /** An authorized `[address, name]` pair; `name` is `undefined` when the identity has no dot. */
  datatype Worker = Worker(address: string, name: Option<string>)

  /** `socket.data`: the connection's difficulty, its authorized workers (a set of
      freshly built arrays, so a repeat authorization adds another element) and its
      unterminated input. */
  datatype Miner = Miner(difficulty: real, workers: seq<Worker>, cachedBytes: string)

  datatype StratumState = StratumState(
    contributions: OMap<nat, Contribution>,
    subscriptors: seq<SocketId>,
    miners: map<string, set<SocketId>>,
    sockets: map<SocketId, Miner>)

  /** The calls into code this model does not contain, as values supplied by the caller. */
  datatype Env = Env(
    validAddress: string -> bool,            // Address.validate
    checkWork: (T.PoW, nat) -> (bool, nat),  // PoW.checkWork: is it a block, achieved target
    targetOf: real -> nat,                   // calculateTarget(difficulty.toNumber())
    accepts: T.Block -> bool,                // the node's submitBlock report is 'success'
    finalize: T.Header -> T.Hash,            // Header.finalize
    extranonce: string)                      // randomBytes(4).toString('hex')

  /** What an accepted share leads to. */
  datatype Accepted = ShareRecorded | BlockFound(hash: T.Hash, winner: Contribution)

  ghost predicate Distinct(s: seq<SocketId>)
  {
    forall i, j :: 0 <= i < j < |s| ==> s[i] != s[j]
  }

  function Addresses(workers: seq<Worker>): set<string>
  {
    set i | 0 <= i < |workers| :: workers[i].address
  }

  /** Subscribers are listed once each and have socket data; no address keeps an empty
      set; a connection listed under an address has a worker with that address. */
  ghost predicate Consistent(st: StratumState)
  {
    && Distinct(st.subscriptors)
    && (forall i :: 0 <= i < |st.subscriptors| ==> st.subscriptors[i] in st.sockets)
    && (forall a | a in st.miners :: st.miners[a] != {})
    && (forall a, s | a in st.miners && s in st.miners[a] :: s in st.sockets && a in Addresses(st.sockets[s].workers))
  }

  /** The text before the first `.`: `identity.split('.')[0]`. */
  function BeforeDot(s: string): (r: string)
    ensures |r| <= |s| && r == s[..|r|]
    ensures '.' !in r
    ensures |r| < |s| ==> s[|r|] == '.'
  {
    if s == [] || s[0] == '.' then [] else [s[0]] + BeforeDot(s[1..])
  }

  /** `identity.split('.')[1]`: the text between the first and the second dot, if there is a dot. */
  function WorkerName(identity: string): (r: Option<string>)
    ensures r.Some? <==> '.' in identity
  {
    var address := BeforeDot(identity);
    if |address| < |identity| then Some(BeforeDot(identity[|address| + 1..])) else None
  }

  /** `subscribe`: a second subscription of the same connection throws; otherwise the
      connection joins the subscribers. */
  function Subscribed(st: StratumState, socket: SocketId): (r: (Result<(), Thrown>, StratumState))
    ensures socket in st.subscriptors ==> r == (Err(Failed("Already subscribed")), st)
    ensures socket !in st.subscriptors ==>
      && r.0.Ok?
      && r.1 == st.(subscriptors := r.1.subscriptors)
      && r.1.subscriptors == st.subscriptors + [socket]
      && |r.1.subscriptors| == |st.subscriptors| + 1
    ensures Consistent(st) && socket in st.sockets ==> Consistent(r.1)
  {
    if socket in st.subscriptors then (Err(Failed("Already subscribed")), st)
    else (Ok(()), st.(subscriptors := st.subscriptors + [socket]))
  }

  /** `authorize`: an address that does not validate throws before anything changes;
      otherwise the connection joins the address's set (once), the worker pair is
      appended to the connection's workers, and the extranonce and difficulty
      notifications follow. */
  function Authorized(st: StratumState, socket: SocketId, identity: string, env: Env): (r: (Result<seq<Event>, Thrown>, StratumState))
    requires socket in st.sockets
    ensures var address := BeforeDot(identity);
      && (!env.validAddress(address) ==> r == (Err(Failed("Invalid address")), st))
      && (env.validAddress(address) ==>
          && r.0 == Ok([SetExtranonce(env.extranonce), SetDifficulty(st.sockets[socket].difficulty)])
          && r.1.contributions == st.contributions && r.1.subscriptors == st.subscriptors
          && r.1.miners.Keys == st.miners.Keys + {address}
          && r.1.miners[address] == (if address in st.miners then st.miners[address] else {}) + {socket}
          && (forall a | a in st.miners && a != address :: r.1.miners[a] == st.miners[a])
          && r.1.sockets.Keys == st.sockets.Keys
          && r.1.sockets[socket]
             == st.sockets[socket].(workers := st.sockets[socket].workers + [Worker(address, WorkerName(identity))])
          && (forall s | s in st.sockets && s != socket :: r.1.sockets[s] == st.sockets[s]))
    ensures Consistent(st) ==> Consistent(r.1)
  {
    var address := BeforeDot(identity);
    if !env.validAddress(address) then (Err(Failed("Invalid address")), st)
    else
      var workers := if address in st.miners then st.miners[address] else {};
      var m := st.sockets[socket];
      var m' := m.(workers := m.workers + [Worker(address, WorkerName(identity))]);
      var st' := st.(miners := st.miners[address := workers + {socket}], sockets := st.sockets[socket := m']);
      assert address in Addresses(m'.workers) by {
        assert m'.workers[|m'.workers| - 1].address == address;
      }
      assert Consistent(st) ==> Consistent(st') by {
        if Consistent(st) {
          forall a, s | a in st'.miners && s in st'.miners[a]
            ensures s in st'.sockets && a in Addresses(st'.sockets[s].workers)
          {
            if s == socket && a != address {
              var i :| 0 <= i < |m.workers| && m.workers[i].address == a;
              assert m'.workers[i].address == a;
            }
          }
        }
      }
      (Ok([SetExtranonce(env.extranonce), SetDifficulty(m.difficulty)]), st')
  }

  /** Authorizing the same identity twice: the address's set does not change the
      second time, but the connection now carries the worker pair twice. */
  lemma AuthorizeTwice(st: StratumState, socket: SocketId, identity: string, env: Env)
    requires socket in st.sockets && env.validAddress(BeforeDot(identity))
    ensures var once := Authorized(st, socket, identity, env).1;
      var twice := Authorized(once, socket, identity, env).1;
      var w := Worker(BeforeDot(identity), WorkerName(identity));
      && twice.miners == once.miners
      && twice.sockets[socket].workers == st.sockets[socket].workers + [w, w]
  {
    var once := Authorized(st, socket, identity, env).1;
    var address := BeforeDot(identity);
    assert once.miners[address] + {socket} == once.miners[address];
  }

  /** The template a share names: its job id is a string that resolves to a hash whose
      template is still stored. */
  function LiveHash(w: T.Window, id: Json): Option<T.Hash>
  {
    if id.JString? && T.HashOf(w, id.s).Some? && T.HashOf(w, id.s).value in w.templates.items
    then T.HashOf(w, id.s) else None
  }

  /** The share's nonce, `BigInt('0x' + work)`, for a string `work`. */
  function NonceOf(work: Json): Option<nat>
  {
    if work.JString? then Hex.ParseHex(work.s) else None
  }

  /** `mining.submit`'s checks in the source's order: the job must resolve, the nonce
      must parse, the nonce must be new to the table, and the achieved target must
      not exceed the connection's target. A share that passes them and is not a block
      adds exactly one entry to the table, under its nonce. A block is written into its
      template with the nonce and sent to the node, and the table is left as it was;
      the share is answered with the finalized header hash and the winning
      contribution when the node accepts the block, and fails otherwise. A rejected
      share changes nothing, except that a block the node refuses keeps the nonce
      written into its template. */
  function ShareSubmitted(st: StratumState, w: T.Window, socket: SocketId, identity: string, id: Json, work: Json, env: Env)
    : (r: (Result<Accepted, Thrown>, StratumState, T.Window))
    requires socket in st.sockets
    ensures LiveHash(w, id).None? ==> r == (Err(Raised(JobNotFound)), st, w)
    ensures LiveHash(w, id).Some? && NonceOf(work).None? ==> r == (Err(Failed("SyntaxError")), st, w)
    ensures LiveHash(w, id).Some? && NonceOf(work).Some? ==>
      var hash, nonce := LiveHash(w, id).value, NonceOf(work).value;
      var difficulty := st.sockets[socket].difficulty;
      var (isBlock, target) := env.checkWork(w.templates.items[hash].pow, nonce);
      var winner := Contribution(BeforeDot(identity), difficulty);
      && (nonce in st.contributions.items ==> r == (Err(Raised(DuplicateShare)), st, w))
      && (nonce !in st.contributions.items && target > env.targetOf(difficulty) ==>
            r == (Err(Raised(LowDifficultyShare)), st, w))
      && (nonce !in st.contributions.items && target <= env.targetOf(difficulty) && !isBlock ==>
            && r == (Ok(ShareRecorded), st.(contributions := Put(st.contributions, nonce, winner)), w)
            && |r.1.contributions.keys| == |st.contributions.keys| + 1)
      && (nonce !in st.contributions.items && target <= env.targetOf(difficulty) && isBlock ==>
            var w' := T.Submitted(w, hash, nonce, env.accepts, env.finalize).0;
            var b := w'.templates.items[hash].block;
            && r.1 == st && r.2 == w'
            && b.header.nonce == nonce
            && (env.accepts(b) ==> r.0 == Ok(BlockFound(env.finalize(b.header), winner)))
            && (!env.accepts(b) ==> r.0 == Err(Failed("Block is on IBD/route is full"))))
    ensures r.0 != Err(Raised(Unknown))
    ensures r.1.sockets == st.sockets && r.1.subscriptors == st.subscriptors && r.1.miners == st.miners
    ensures Consistent(st) ==> Consistent(r.1)
    ensures T.Coherent(w) ==> T.Coherent(r.2)
  {
    var address := BeforeDot(identity);
    var hash := LiveHash(w, id);
    if hash.None? then (Err(Raised(JobNotFound)), st, w)
    else
      var pow := w.templates.items[hash.value].pow;
      var nonce := NonceOf(work);
      if nonce.None? then (Err(Failed("SyntaxError")), st, w)
      else if nonce.value in st.contributions.items then (Err(Raised(DuplicateShare)), st, w)
      else
        var difficulty := st.sockets[socket].difficulty;
        var (isBlock, target) := env.checkWork(pow, nonce.value);
        if target > env.targetOf(difficulty) then (Err(Raised(LowDifficultyShare)), st, w)
        else if isBlock then
          var (w', submitted) := T.Submitted(w, hash.value, nonce.value, env.accepts, env.finalize);
          match submitted
          case Ok(block) => (Ok(BlockFound(block, Contribution(address, difficulty))), st, w')
          case Err(message) => (Err(Failed(message)), st, w')
        else
          (Ok(ShareRecorded), st.(contributions := Put(st.contributions, nonce.value, Contribution(address, difficulty))), w)
  }

  /** A nonce recorded once is a duplicate on every later submission, from any
      connection and against any live job. */
  lemma SameNonceTwice(st: StratumState, w: T.Window, s1: SocketId, s2: SocketId, identity1: string, identity2: string,
                       id1: Json, id2: Json, work: Json, env: Env)
    requires s1 in st.sockets && s2 in st.sockets
    requires ShareSubmitted(st, w, s1, identity1, id1, work, env).0 == Ok(ShareRecorded)
    requires id2.JString? && T.HashOf(w, id2.s).Some? && T.HashOf(w, id2.s).value in w.templates.items
    ensures var st1 := ShareSubmitted(st, w, s1, identity1, id1, work, env).1;
      ShareSubmitted(st1, w, s2, identity2, id2, work, env).0 == Err(Raised(DuplicateShare))
  {
    var st1 := ShareSubmitted(st, w, s1, identity1, id1, work, env).1;
    assert Hex.ParseHex(work.s).value in st1.contributions.items;
  }

  /** An achieved target equal to the connection's target is accepted. */
  lemma TargetBoundaryAccepted(st: StratumState, w: T.Window, socket: SocketId, identity: string, id: Json, work: Json, env: Env)
    requires socket in st.sockets
    requires id.JString? && T.HashOf(w, id.s).Some? && T.HashOf(w, id.s).value in w.templates.items
    requires work.JString? && Hex.ParseHex(work.s).Some? && Hex.ParseHex(work.s).value !in st.contributions.items
    requires var pow := w.templates.items[T.HashOf(w, id.s).value].pow;
      var (isBlock, target) := env.checkWork(pow, Hex.ParseHex(work.s).value);
      !isBlock && target == env.targetOf(st.sockets[socket].difficulty)
    ensures ShareSubmitted(st, w, socket, identity, id, work, env).0 == Ok(ShareRecorded)
  {
  }

  /** `dump`: every recorded contribution, in recording order, and an empty table. */
  function Drained(st: StratumState): (r: (seq<Contribution>, StratumState))
    ensures r.0 == Values(st.contributions)
    ensures r.1 == st.(contributions := Empty())
    ensures Consistent(st) ==> Consistent(r.1)
  {
    (Values(st.contributions), st.(contributions := Empty()))
  }

  /** Two dumps in a row: the contents, then nothing; and a drained nonce may be
      submitted again. */
  lemma DrainTwice(st: StratumState)
    ensures Drained(Drained(st).1).0 == []
    ensures Drained(Drained(st).1).1 == Drained(st).1
    ensures forall n :: n !in Drained(st).1.contributions.items
  {
  }

  /** The `mining.notify` event for a registered template: the job id, and the hash
      followed by the 16 hex digits of the little-endian timestamp. */
  function NotifyOf(ann: T.Announcement): (e: Event)
    ensures e.Notify? && e.job == ann.id
    ensures |e.payload| == |ann.hash| + 16 && e.payload[..|ann.hash|] == ann.hash
    ensures Hex.IsDigits(e.payload[|ann.hash|..]) && Hex.LeValue(e.payload[|ann.hash|..]) == ann.timestamp
  {
    var digits := Hex.LeHex(ann.timestamp);
    Hex.LeHexRoundTrip(ann.timestamp);
    assert (ann.hash + digits)[|ann.hash|..] == digits;
    Notify(ann.id, ann.hash + digits)
  }

  /** The subscribers without `socket`. */
  function Unsubscribed(subscriptors: seq<SocketId>, socket: SocketId): (r: seq<SocketId>)
    ensures forall s | s in r :: s in subscriptors && s != socket
    ensures forall s | s in subscriptors && s != socket :: s in r
    ensures |r| <= |subscriptors|
  {
    if subscriptors == [] then []
    else if subscriptors[0] == socket then Unsubscribed(subscriptors[1..], socket)
    else [subscriptors[0]] + Unsubscribed(subscriptors[1..], socket)
  }

  /** Leaving keeps the subscribers listed once each. */
  lemma {:induction false} UnsubscribedDistinct(subscriptors: seq<SocketId>, socket: SocketId)
    requires Distinct(subscriptors)
    ensures Distinct(Unsubscribed(subscriptors, socket))
  {
    if subscriptors != [] {
      var rest := subscriptors[1..];
      assert Distinct(rest) by {
        forall i, j | 0 <= i < j < |rest| ensures rest[i] != rest[j] {
          assert rest[i] == subscriptors[i + 1] && rest[j] == subscriptors[j + 1];
        }
      }
      UnsubscribedDistinct(rest, socket);
      if subscriptors[0] != socket {
        var r := Unsubscribed(subscriptors, socket);
        assert subscriptors[0] !in rest by {
          forall k | 0 <= k < |rest| ensures rest[k] != subscriptors[0] {
            assert rest[k] == subscriptors[k + 1];
          }
        }
        forall i, j | 0 <= i < j < |r| ensures r[i] != r[j] {
          if i == 0 {
            assert r[j] in Unsubscribed(rest, socket);
          } else {
            assert r[i] == Unsubscribed(rest, socket)[i - 1] && r[j] == Unsubscribed(rest, socket)[j - 1];
          }
        }
      }
    }
  }

  /** The loop over a dead connection's workers: each address's set loses the
      connection and is deleted once empty. The flag is false when an address has no
      set any more, where `miners.get(address)!.delete` throws; the map is then as the
      loop left it. */
  function Pruned(miners: map<string, set<SocketId>>, socket: SocketId, workers: seq<Worker>): (r: (bool, map<string, set<SocketId>>))
    ensures r.1.Keys <= miners.Keys
    ensures forall a | a in r.1 :: r.1[a] <= miners[a]
    ensures forall a | a in miners && a !in Addresses(workers) :: a in r.1 && r.1[a] == miners[a]
    ensures r.0 ==> forall a | a in Addresses(workers) && a in r.1 :: socket !in r.1[a]
    ensures (forall a | a in miners :: miners[a] != {}) ==> (forall a | a in r.1 :: r.1[a] != {})
    decreases |workers|
  {
    if workers == [] then (true, miners)
    else
      var address := workers[0].address;
      if address !in miners then (false, miners)
      else
        var left := miners[address] - {socket};
        var next := if left == {} then miners[address := left] - {address} else miners[address := left];
        assert forall a | a in Addresses(workers[1..]) :: a in Addresses(workers) by {
          forall a | a in Addresses(workers[1..]) ensures a in Addresses(workers) {
            var i :| 0 <= i < |workers[1..]| && workers[1..][i].address == a;
            assert workers[i + 1].address == a;
          }
        }
        assert forall a | a in Addresses(workers) && a != address :: a in Addresses(workers[1..]) by {
          forall a | a in Addresses(workers) && a != address ensures a in Addresses(workers[1..]) {
            var i :| 0 <= i < |workers| && workers[i].address == a;
            assert i > 0 && workers[1..][i - 1].address == a;
          }
        }
        Pruned(next, socket, workers[1..])
  }

  lemma PrunedStep(miners: map<string, set<SocketId>>, socket: SocketId, workers: seq<Worker>, i: nat)
    requires i < |workers| && workers[i].address in miners
    ensures var address := workers[i].address;
      var left := miners[address] - {socket};
      var next := if left == {} then miners[address := left] - {address} else miners[address := left];
      Pruned(miners, socket, workers[i..]) == Pruned(next, socket, workers[i + 1..])
  {
    assert workers[i..][1..] == workers[i + 1..];
  }

  /** The `forEach` over the subscribers captured when `announce` began: writable
      connections are sent the job, the others are pruned from every address set
      they joined and from the subscribers. Returns the connections written to, the
      exception that ended the loop (if one did) and the resulting state. */
  function Broadcast(st: StratumState, pending: seq<SocketId>, writable: SocketId -> bool, sent: seq<SocketId>)
    : (r: (seq<SocketId>, Option<Thrown>, StratumState))
    requires forall i :: 0 <= i < |pending| ==> pending[i] in st.sockets
    ensures r.2.sockets == st.sockets && r.2.contributions == st.contributions
    decreases |pending|
  {
    if pending == [] then (sent, None, st)
    else
      var socket := pending[0];
      if writable(socket) then Broadcast(st, pending[1..], writable, sent + [socket])
      else
        var (ok, miners) := Pruned(st.miners, socket, st.sockets[socket].workers);
        if !ok then (sent, Some(Failed("TypeError")), st.(miners := miners))
        else Broadcast(st.(miners := miners, subscriptors := Unsubscribed(st.subscriptors, socket)), pending[1..], writable, sent)
  }

  /** `announce`: the job event and the broadcast over the current subscribers. */
  function Announced(st: StratumState, ann: T.Announcement, writable: SocketId -> bool)
    : (r: (Event, seq<SocketId>, Option<Thrown>, StratumState))
    requires Consistent(st)
  {
    var (sent, failure, st') := Broadcast(st, st.subscriptors, writable, []);
    (NotifyOf(ann), sent, failure, st')
  }

  /** The writable connections of a list, in order. */
  function Writable(subscriptors: seq<SocketId>, writable: SocketId -> bool): seq<SocketId>
  {
    if subscriptors == [] then []
    else (if writable(subscriptors[0]) then [subscriptors[0]] else []) + Writable(subscriptors[1..], writable)
  }

  /** Broadcasting keeps the state consistent, even when it stops on an exception. */
  lemma {:induction false} BroadcastConsistent(st: StratumState, pending: seq<SocketId>, writable: SocketId -> bool, sent: seq<SocketId>)
    requires Consistent(st)
    requires forall i :: 0 <= i < |pending| ==> pending[i] in st.sockets
    ensures Consistent(Broadcast(st, pending, writable, sent).2)
    decreases |pending|
  {
    if pending != [] {
      var socket := pending[0];
      if writable(socket) {
        BroadcastConsistent(st, pending[1..], writable, sent + [socket]);
      } else {
        var (ok, miners) := Pruned(st.miners, socket, st.sockets[socket].workers);
        ShrunkConsistent(st, miners);
        if ok {
          UnsubscribedConsistent(st.(miners := miners), socket);
          BroadcastConsistent(st.(miners := miners, subscriptors := Unsubscribed(st.subscriptors, socket)), pending[1..], writable, sent);
        }
      }
    }
  }

  /** Shrinking the address sets, without leaving any of them empty, keeps the state
      consistent; pruning does this whether or not its loop completes. */
  lemma ShrunkConsistent(st: StratumState, miners: map<string, set<SocketId>>)
    requires Consistent(st)
    requires forall a | a in miners :: a in st.miners && miners[a] <= st.miners[a] && miners[a] != {}
    ensures Consistent(st.(miners := miners))
  {
    forall a, s | a in miners && s in miners[a] ensures s in st.sockets && a in Addresses(st.sockets[s].workers) {
      assert s in st.miners[a];
    }
  }

  /** Dropping a connection from the subscribers keeps the state consistent. */
  lemma UnsubscribedConsistent(st: StratumState, socket: SocketId)
    requires Consistent(st)
    ensures Consistent(st.(subscriptors := Unsubscribed(st.subscriptors, socket)))
  {
    var next := st.(subscriptors := Unsubscribed(st.subscriptors, socket));
    UnsubscribedDistinct(st.subscriptors, socket);
    forall i | 0 <= i < |next.subscriptors| ensures next.subscriptors[i] in next.sockets {
      assert next.subscriptors[i] in st.subscriptors;
    }
  }

  /** Every dead subscriber's workers have distinct addresses, and the connection is
      still in each of those addresses' sets. */
  ghost predicate PrunableAll(st: StratumState, pending: seq<SocketId>, writable: SocketId -> bool)
    requires forall i :: 0 <= i < |pending| ==> pending[i] in st.sockets
  {
    forall i | 0 <= i < |pending| && !writable(pending[i]) :: Prunable(st.miners, pending[i], st.sockets[pending[i]].workers)
  }

  ghost predicate Prunable(miners: map<string, set<SocketId>>, socket: SocketId, workers: seq<Worker>)
  {
    && (forall i, j :: 0 <= i < j < |workers| ==> workers[i].address != workers[j].address)
    && (forall i :: 0 <= i < |workers| ==> workers[i].address in miners && socket in miners[workers[i].address])
  }

  lemma {:induction false} PruneSucceeds(miners: map<string, set<SocketId>>, socket: SocketId, workers: seq<Worker>)
    requires Prunable(miners, socket, workers)
    ensures Pruned(miners, socket, workers).0
    decreases |workers|
  {
    if workers != [] {
      var address := workers[0].address;
      var left := miners[address] - {socket};
      var next := if left == {} then miners[address := left] - {address} else miners[address := left];
      assert Prunable(next, socket, workers[1..]) by {
        forall i | 0 <= i < |workers[1..]| ensures workers[1..][i].address in next && socket in next[workers[1..][i].address] {
          assert workers[1..][i] == workers[i + 1];
          assert workers[i + 1].address != address;
        }
      }
      PruneSucceeds(next, socket, workers[1..]);
    }
  }

  /** Pruning one connection leaves every other connection in the sets it was in. */
  lemma PruneKeepsOthers(miners: map<string, set<SocketId>>, socket: SocketId, workers: seq<Worker>, other: SocketId, a: string)
    requires other != socket && a in miners && other in miners[a]
    ensures var m := Pruned(miners, socket, workers).1; a in m && other in m[a]
    decreases |workers|
  {
    if workers != [] {
      var address := workers[0].address;
      if address in miners {
        var left := miners[address] - {socket};
        var next := if left == {} then miners[address := left] - {address} else miners[address := left];
        assert a == address ==> other in left;
        PruneKeepsOthers(next, socket, workers[1..], other, a);
      }
    }
  }

  /** Pruning the first pending connection leaves the others prunable. */
  lemma PrunableAfterPrune(st: StratumState, pending: seq<SocketId>, writable: SocketId -> bool)
    requires |pending| > 0
    requires forall i :: 0 <= i < |pending| ==> pending[i] in st.sockets
    requires forall i, j :: 0 <= i < j < |pending| ==> pending[i] != pending[j]
    requires PrunableAll(st, pending, writable)
    ensures var socket := pending[0];
      var miners := Pruned(st.miners, socket, st.sockets[socket].workers).1;
      PrunableAll(st.(miners := miners, subscriptors := Unsubscribed(st.subscriptors, socket)), pending[1..], writable)
  {
    var socket := pending[0];
    var miners := Pruned(st.miners, socket, st.sockets[socket].workers).1;
    var next := st.(miners := miners, subscriptors := Unsubscribed(st.subscriptors, socket));
    forall i | 0 <= i < |pending[1..]| && !writable(pending[1..][i])
      ensures Prunable(next.miners, pending[1..][i], next.sockets[pending[1..][i]].workers)
    {
      var t := pending[1..][i];
      assert t == pending[i + 1] && t != socket;
      var ws := st.sockets[t].workers;
      assert Prunable(st.miners, t, ws);
      forall k | 0 <= k < |ws| ensures ws[k].address in miners && t in miners[ws[k].address] {
        PruneKeepsOthers(st.miners, socket, st.sockets[socket].workers, t, ws[k].address);
      }
    }
  }

  /** A broadcast only ever shrinks the address sets. */
  lemma {:induction false} BroadcastShrinks(st: StratumState, pending: seq<SocketId>, writable: SocketId -> bool, sent: seq<SocketId>)
    requires forall i :: 0 <= i < |pending| ==> pending[i] in st.sockets
    ensures var m := Broadcast(st, pending, writable, sent).2.miners;
      forall a | a in m :: a in st.miners && m[a] <= st.miners[a]
    decreases |pending|
  {
    if pending != [] {
      var socket := pending[0];
      if writable(socket) {
        BroadcastShrinks(st, pending[1..], writable, sent + [socket]);
      } else {
        var (ok, miners) := Pruned(st.miners, socket, st.sockets[socket].workers);
        if ok {
          BroadcastShrinks(st.(miners := miners, subscriptors := Unsubscribed(st.subscriptors, socket)), pending[1..], writable, sent);
        }
      }
    }
  }

  /** A connection that is not a dead pending subscriber stays in every address set it
      was in, whether or not the broadcast finishes. */
  lemma {:induction false} BroadcastKeeps(st: StratumState, pending: seq<SocketId>, writable: SocketId -> bool, sent: seq<SocketId>,
                                          s: SocketId, a: string)
    requires forall i :: 0 <= i < |pending| ==> pending[i] in st.sockets
    requires a in st.miners && s in st.miners[a]
    requires s in pending ==> writable(s)
    ensures var m := Broadcast(st, pending, writable, sent).2.miners; a in m && s in m[a]
    decreases |pending|
  {
    if pending != [] {
      var socket := pending[0];
      if writable(socket) {
        BroadcastKeeps(st, pending[1..], writable, sent + [socket], s, a);
      } else {
        var (ok, miners) := Pruned(st.miners, socket, st.sockets[socket].workers);
        PruneKeepsOthers(st.miners, socket, st.sockets[socket].workers, s, a);
        if ok {
          BroadcastKeeps(st.(miners := miners, subscriptors := Unsubscribed(st.subscriptors, socket)), pending[1..], writable, sent, s, a);
        }
      }
    }
  }

  /** When the broadcast finishes, each dead pending subscriber has left the sets of
      all its workers' addresses. */
  lemma {:induction false} BroadcastPrunes(st: StratumState, pending: seq<SocketId>, writable: SocketId -> bool, sent: seq<SocketId>)
    requires forall i :: 0 <= i < |pending| ==> pending[i] in st.sockets
    requires forall i, j :: 0 <= i < j < |pending| ==> pending[i] != pending[j]
    requires PrunableAll(st, pending, writable)
    ensures var m := Broadcast(st, pending, writable, sent).2.miners;
      forall s, a | s in pending && !writable(s) && a in Addresses(st.sockets[s].workers) && a in m :: s !in m[a]
    decreases |pending|
  {
    if pending != [] {
      var socket := pending[0];
      var m := Broadcast(st, pending, writable, sent).2.miners;
      if writable(socket) {
        BroadcastPrunes(st, pending[1..], writable, sent + [socket]);
        assert m == Broadcast(st, pending[1..], writable, sent + [socket]).2.miners;
        forall s, a | s in pending && !writable(s) && a in Addresses(st.sockets[s].workers) && a in m ensures s !in m[a] {
          var i :| 0 <= i < |pending| && pending[i] == s;
          assert pending[1..][i - 1] == s;
        }
      } else {
        PruneSucceeds(st.miners, socket, st.sockets[socket].workers);
        var miners := Pruned(st.miners, socket, st.sockets[socket].workers).1;
        var next := st.(miners := miners, subscriptors := Unsubscribed(st.subscriptors, socket));
        PrunableAfterPrune(st, pending, writable);
        BroadcastPrunes(next, pending[1..], writable, sent);
        BroadcastShrinks(next, pending[1..], writable, sent);
        forall s, a | s in pending && !writable(s) && a in Addresses(st.sockets[s].workers) && a in m ensures s !in m[a] {
          if s != socket {
            var i :| 0 <= i < |pending| && pending[i] == s;
            assert pending[1..][i - 1] == s;
          }
        }
      }
    }
  }

  /** When no dead subscriber carries two workers under one address (and each is still
      in its addresses' sets), the broadcast finishes: exactly the writable
      subscribers are sent the job and remain subscribed, and each dead one has left
      the sets of its workers' addresses. Every other connection keeps its places
      (`BroadcastKeeps`). */
  lemma BroadcastCompletes(st: StratumState, pending: seq<SocketId>, writable: SocketId -> bool, sent: seq<SocketId>)
    requires forall i :: 0 <= i < |pending| ==> pending[i] in st.sockets
    requires forall i, j :: 0 <= i < j < |pending| ==> pending[i] != pending[j]
    requires PrunableAll(st, pending, writable)
    ensures var r := Broadcast(st, pending, writable, sent);
      && r.1 == None && r.0 == sent + Writable(pending, writable)
      && (forall s :: s in r.2.subscriptors <==> s in st.subscriptors && (s in pending ==> writable(s)))
      && (forall s, a | s in pending && !writable(s) && a in Addresses(st.sockets[s].workers) && a in r.2.miners :: s !in r.2.miners[a])
  {
    var r := Broadcast(st, pending, writable, sent);
    BroadcastFinishes(st, pending, writable, sent);
    assert forall s, a | s in pending && !writable(s) && a in Addresses(st.sockets[s].workers) && a in r.2.miners ::
             s !in r.2.miners[a] by {
      BroadcastPrunes(st, pending, writable, sent);
    }
  }

  /** The sending and subscription half of `BroadcastCompletes`. */
  lemma {:induction false} BroadcastFinishes(st: StratumState, pending: seq<SocketId>, writable: SocketId -> bool, sent: seq<SocketId>)
    requires forall i :: 0 <= i < |pending| ==> pending[i] in st.sockets
    requires forall i, j :: 0 <= i < j < |pending| ==> pending[i] != pending[j]
    requires PrunableAll(st, pending, writable)
    ensures var r := Broadcast(st, pending, writable, sent);
      && r.1 == None && r.0 == sent + Writable(pending, writable)
      && (forall s :: s in r.2.subscriptors <==> s in st.subscriptors && (s in pending ==> writable(s)))
    decreases |pending|
  {
    if pending != [] {
      var socket := pending[0];
      if writable(socket) {
        BroadcastFinishes(st, pending[1..], writable, sent + [socket]);
        assert sent + [socket] + Writable(pending[1..], writable) == sent + Writable(pending, writable);
      } else {
        PruneSucceeds(st.miners, socket, st.sockets[socket].workers);
        var miners := Pruned(st.miners, socket, st.sockets[socket].workers).1;
        var next := st.(miners := miners, subscriptors := Unsubscribed(st.subscriptors, socket));
        PrunableAfterPrune(st, pending, writable);
        BroadcastFinishes(next, pending[1..], writable, sent);
        assert Writable(pending, writable) == Writable(pending[1..], writable);
      }
    }
  }

  /** `announce` over subscribers that can all be pruned: it finishes, the job goes
      to exactly the writable subscribers in subscription order, and those are the
      subscribers that remain. What happens to the address sets is `AnnouncePrunes`. */
  lemma AnnounceCompletes(st: StratumState, ann: T.Announcement, writable: SocketId -> bool)
    requires Consistent(st) && PrunableAll(st, st.subscriptors, writable)
    ensures var (event, sent, failure, st') := Announced(st, ann, writable);
      && failure == None
      && sent == Writable(st.subscriptors, writable)
      && (forall s :: s in st'.subscriptors <==> s in sent)
  {
    BroadcastFinishes(st, st.subscriptors, writable, []);
    WritableMembers(st.subscriptors, writable);
  }

  /** `announce` over subscribers that can all be pruned: every subscriber it does not
      write to has left every address set, every other connection keeps its places,
      and no address is left with an empty set. */
  lemma AnnouncePrunes(st: StratumState, ann: T.Announcement, writable: SocketId -> bool)
    requires Consistent(st) && PrunableAll(st, st.subscriptors, writable)
    ensures var st' := Announced(st, ann, writable).3;
      && (forall s, a | s in st.subscriptors && !writable(s) && a in st'.miners :: s !in st'.miners[a])
      && (forall s, a | a in st.miners && s in st.miners[a] && (s in st.subscriptors ==> writable(s)) ::
            a in st'.miners && s in st'.miners[a])
      && (forall a | a in st'.miners :: st'.miners[a] != {})
  {
    var st' := Broadcast(st, st.subscriptors, writable, []).2;
    assert Announced(st, ann, writable).3 == st';
    assert forall s, a | s in st.subscriptors && !writable(s) && a in st'.miners :: s !in st'.miners[a] by {
      BroadcastPrunes(st, st.subscriptors, writable, []);
      BroadcastShrinks(st, st.subscriptors, writable, []);
    }
    assert forall s, a | a in st.miners && s in st.miners[a] && (s in st.subscriptors ==> writable(s)) ::
             a in st'.miners && s in st'.miners[a] by {
      forall s, a | a in st.miners && s in st.miners[a] && (s in st.subscriptors ==> writable(s))
        ensures a in st'.miners && s in st'.miners[a]
      {
        BroadcastKeeps(st, st.subscriptors, writable, [], s, a);
      }
    }
    assert forall a | a in st'.miners :: st'.miners[a] != {} by {
      BroadcastConsistent(st, st.subscriptors, writable, []);
    }
  }

  lemma {:induction false} WritableMembers(subscriptors: seq<SocketId>, writable: SocketId -> bool)
    ensures forall s :: s in Writable(subscriptors, writable) <==> s in subscriptors && writable(s)
  {
    if subscriptors != [] {
      WritableMembers(subscriptors[1..], writable);
    }
  }

  /** The crash the source admits: one dead connection that authorized two workers
      under the same address, and was that address's only connection. The first
      pair deletes the address's set, the second finds none and throws. */
  lemma DuplicateAddressCrashes(socket: SocketId, address: string, difficulty: real)
    ensures var miner := Miner(difficulty, [Worker(address, Some("a")), Worker(address, Some("b"))], "");
      var st := StratumState(Empty(), [socket], map[address := {socket}], map[socket := miner]);
      var r := Broadcast(st, [socket], _ => false, []);
      r.1 == Some(Failed("TypeError")) && r.2.miners == map[] && r.2.subscriptors == [socket]
  {
    var miner := Miner(difficulty, [Worker(address, Some("a")), Worker(address, Some("b"))], "");
    var once := map[address := {socket}] - {address};
    assert Pruned(map[address := {socket}], socket, miner.workers) == Pruned(once, socket, miner.workers[1..]);
    assert address !in once;
  }

  /** The state with a connection's unterminated input replaced. */
  function WithBuffer(st: StratumState, socket: SocketId, buffer: string): (r: StratumState)
    requires socket in st.sockets
    ensures r.contributions == st.contributions && r.subscriptors == st.subscriptors && r.miners == st.miners
    ensures r.sockets.Keys == st.sockets.Keys
    ensures r.sockets[socket] == st.sockets[socket].(cachedBytes := buffer)
    ensures forall s | s in st.sockets && s != socket :: r.sockets[s] == st.sockets[s]
    ensures Consistent(st) ==> Consistent(r)
  {
    var m := st.sockets[socket];
    st.(sockets := st.sockets[socket := m.(cachedBytes := buffer)])
  }

  /** The share-accounting object: subscribers, address sets, the contribution table
      and each connection's data, updated in place. */
  class Stratum {
    const templates: T.Templates
    var contributions: OMap<nat, Contribution>
    var subscriptors: seq<SocketId>
    var miners: map<string, set<SocketId>>
    var sockets: map<SocketId, Miner>

    function State(): StratumState
      reads this
    {
      StratumState(contributions, subscriptors, miners, sockets)
    }

    ghost predicate Valid()
      reads this, templates
    {
      Consistent(State()) && templates.Valid()
    }

    constructor (templates: T.Templates)
      requires templates.Valid()
      ensures Valid() && this.templates == templates
      ensures contributions.keys == [] && subscriptors == [] && miners == map[] && sockets == map[]
    {
      this.templates := templates;
      contributions := Empty();
      subscriptors := [];
      miners := map[];
      sockets := map[];
    }

    method Subscribe(socket: SocketId) returns (r: Result<(), Thrown>)
      requires Valid() && socket in sockets
      modifies this
      ensures Valid()
      ensures (r, State()) == Subscribed(old(State()), socket)
    {
      ghost var spec := Subscribed(State(), socket);
      if socket in subscriptors {
        return Err(Failed("Already subscribed"));
      }
      subscriptors := subscriptors + [socket];
      r := Ok(());
    }

    method Authorize(socket: SocketId, identity: string, env: Env) returns (r: Result<seq<Event>, Thrown>)
      requires Valid() && socket in sockets
      modifies this
      ensures Valid()
      ensures (r, State()) == Authorized(old(State()), socket, identity, env)
    {
      ghost var spec := Authorized(State(), socket, identity, env);
      var address := BeforeDot(identity);
      var name := WorkerName(identity);
      if !env.validAddress(address) {
        return Err(Failed("Invalid address"));
      }
      if address in miners {
        if socket !in miners[address] {
          miners := miners[address := miners[address] + {socket}];
        } else {
          assert miners[address] + {socket} == miners[address];
          assert miners == miners[address := miners[address] + {socket}];
        }
        assert miners == spec.1.miners;
      } else {
        miners := miners[address := {}];
        miners := miners[address := miners[address] + {socket}];
        assert miners == spec.1.miners;
      }
      var data := sockets[socket];
      sockets := sockets[socket := data.(workers := data.workers + [Worker(address, name)])];
      r := Ok([SetExtranonce(env.extranonce), SetDifficulty(data.difficulty)]);

    }

    method Submit(socket: SocketId, identity: string, id: Json, work: Json, env: Env) returns (r: Result<Accepted, Thrown>)
      requires Valid() && socket in sockets
      modifies this, templates
      ensures Valid()
      ensures (r, State(), templates.State()) == ShareSubmitted(old(State()), old(templates.State()), socket, identity, id, work, env)
    {
      ghost var spec := ShareSubmitted(State(), templates.State(), socket, identity, id, work, env);
      var address := BeforeDot(identity);
      var hash := if id.JString? then templates.GetHash(id.s) else None;
      var state := if hash.Some? then templates.GetPoW(hash.value) else None;
      if state.None? {
        return Err(Raised(JobNotFound));
      }
      var nonce := if work.JString? then Hex.ParseHex(work.s) else None;
      if nonce.None? {
        return Err(Failed("SyntaxError"));
      }
      if nonce.value in contributions.items {
        return Err(Raised(DuplicateShare));
      }
      var difficulty := sockets[socket].difficulty;
      var (isBlock, target) := env.checkWork(state.value, nonce.value);
      if target > env.targetOf(difficulty) {
        return Err(Raised(LowDifficultyShare));
      }
      if isBlock {
        var block := templates.Submit(hash.value, nonce.value, env.accepts, env.finalize);
        match block
        case Ok(h) => r := Ok(BlockFound(h, Contribution(address, difficulty)));
        case Err(message) => r := Err(Failed(message));
      } else {
        contributions := Put(contributions, nonce.value, Contribution(address, difficulty));
        r := Ok(ShareRecorded);
      }
    }

    method Dump() returns (drained: seq<Contribution>)
      requires Valid()
      modifies this`contributions
      ensures Valid()
      ensures (drained, State()) == Drained(old(State()))
    {
      drained := Values(contributions);
      contributions := Empty();
    }

    /** Replaces a connection's unterminated input. */
    method Buffer(socket: SocketId, buffer: string)
      requires Valid() && socket in sockets
      modifies this`sockets
      ensures Valid()
      ensures State() == WithBuffer(old(State()), socket, buffer)
    {
      sockets := sockets[socket := sockets[socket].(cachedBytes := buffer)];
    }

    /** A new block template: the cache's listener runs, and the callback this object
        registered announces the job when one is derived. */
    method OnTemplate(block: T.Block, prePowHash: T.Hash, newId: T.JobId, writable: SocketId -> bool)
      returns (announced: Option<(Event, seq<SocketId>, Option<Thrown>)>)
      requires Valid()
      requires prePowHash !in templates.templates.items ==> newId !in templates.jobs.items
      modifies this, templates
      ensures Valid()
      ensures var (w, ann) := T.Registered(old(templates.State()), templates.daaWindow, block, prePowHash, newId);
        && templates.State() == w
        && (ann.None? ==> announced.None? && State() == old(State()))
        && (ann.Some? ==>
              && announced.Some?
              && (announced.value.0, announced.value.1, announced.value.2, State()) == Announced(old(State()), ann.value, writable))
    {
      var ann := templates.Register(block, prePowHash, newId);
      if ann.None? {
        return None;
      }
      var event, sent, failure := Announce(ann.value, writable);
      announced := Some((event, sent, failure));
    }

    /** `announce(id, hash, timestamp)`. */
    method Announce(ann: T.Announcement, writable: SocketId -> bool) returns (event: Event, sent: seq<SocketId>, failure: Option<Thrown>)
      requires Valid()
      modifies this
      ensures Valid()
      ensures (event, sent, failure, State()) == Announced(old(State()), ann, writable)
    {
      event := NotifyOf(ann);
      ghost var goal := Broadcast(State(), subscriptors, writable, []);
      BroadcastConsistent(State(), subscriptors, writable, []);
      var pending := subscriptors;
      sent := [];
      while pending != []
        invariant forall i :: 0 <= i < |pending| ==> pending[i] in sockets
        invariant Broadcast(State(), pending, writable, sent) == goal
      {
        var socket := pending[0];
        if writable(socket) {
          sent := sent + [socket];
        } else {
          ghost var before := State();
          var pruned := Prune(socket);
          if !pruned {
            failure := Some(Failed("TypeError"));
            assert (sent, failure, State()) == Broadcast(before, pending, writable, sent);
            return;
          }
          subscriptors := Unsubscribed(subscriptors, socket);
          assert Broadcast(State(), pending[1..], writable, sent) == Broadcast(before, pending, writable, sent);
        }
        pending := pending[1..];
      }
      failure := None;
    }

    /** The inner loop of `announce`: the dead connection leaves each of its workers'
        address sets, and an emptied set is deleted. */
    method Prune(socket: SocketId) returns (pruned: bool)
      requires socket in sockets
      modifies this
      ensures sockets == old(sockets) && contributions == old(contributions) && subscriptors == old(subscriptors)
      ensures (pruned, miners) == Pruned(old(miners), socket, sockets[socket].workers)
    {
      var workers := sockets[socket].workers;
      var i := 0;
      while i < |workers|
        invariant 0 <= i <= |workers|
        invariant sockets == old(sockets) && contributions == old(contributions) && subscriptors == old(subscriptors)
        invariant Pruned(miners, socket, workers[i..]) == Pruned(old(miners), socket, workers)
      {
        var address := workers[i].address;
        if address !in miners {
          return false;
        }
        PrunedStep(miners, socket, workers, i);
        var left := miners[address] - {socket};
        miners := miners[address := left];
        if |left| == 0 {
          miners := miners - {address};
        }
        i := i + 1;
      }
      pruned := true;
    }
  }
}
