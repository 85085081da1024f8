/** The job/template window: block templates keyed by their pre-PoW hash, kept in
    registration order and bounded by `daaWindow`, each with a short job id that
    miners use to refer to it. */
module Templates {
  import opened Wrappers
  import opened OrderedMap
  import Hex

  type Hash = string
  type JobId = string

  /** The header fields the pool touches; the rest of the header is in `Block.body`. */
  datatype Header = Header(timestamp: Hex.u64, nonce: nat)

  /** A block template: its header and everything else the node needs to accept it. */
  datatype Block = Block(header: Header, body: string)

  /** The proof-of-work verifier built from a header: its pre-PoW hash and timestamp. */
  datatype PoW = PoW(prePowHash: Hash, timestamp: Hex.u64)

  datatype Template = Template(block: Block, pow: PoW)

  /** The cache's state: `templates` and the job queue, which keeps (id, hash) pairs in
      the same order. */
  datatype Window = Window(templates: OMap<Hash, Template>, jobs: OMap<JobId, Hash>)

  /** The arguments of the registration callback. */
  datatype Announcement = Announcement(id: JobId, hash: Hash, timestamp: Hex.u64)

  /** The job queue lists one id per template, in the templates' order, and every
      verifier belongs to the hash it is stored under. */
  ghost predicate Coherent(w: Window)
  {
    && |w.jobs.keys| == |w.templates.keys|
    && (forall i :: 0 <= i < |w.jobs.keys| ==> w.jobs.items[w.jobs.keys[i]] == w.templates.keys[i])
    && (forall h | h in w.templates.items :: w.templates.items[h].pow.prePowHash == h)
  }

  /** `getHash(id)`. */
  function HashOf(w: Window, id: JobId): (r: Option<Hash>)
    ensures r.Some? <==> id in w.jobs.items
    ensures r.Some? ==> r.value == w.jobs.items[id]
  {
    if id in w.jobs.items then Some(w.jobs.items[id]) else None
  }

  /** `getPoW(hash)`: a verifier exactly when the hash is currently stored. */
  function PowOf(w: Window, hash: Hash): (r: Option<PoW>)
    ensures r.Some? <==> hash in w.templates.items
    ensures r.Some? ==> r.value == w.templates.items[hash].pow
  {
    if hash in w.templates.items then Some(w.templates.items[hash].pow) else None
  }

  /** The `new-block-template` handler. `id` stands for what the job queue's `deriveId`
      returns for the hash; the queue is not part of this model, and all that is asked
      of it is an id that no queued job has. A hash already stored changes nothing and
      announces nothing; a new one is stored last, its id is queued last against it,
      and when the window overflows the oldest template and the oldest job id leave
      together. */
  function Registered(w: Window, daaWindow: nat, block: Block, prePowHash: Hash, id: JobId): (r: (Window, Option<Announcement>))
    requires prePowHash !in w.templates.items ==> id !in w.jobs.items
    ensures prePowHash in w.templates.items ==> r == (w, None)
    ensures prePowHash !in w.templates.items ==>
      && r.1 == Some(Announcement(id, prePowHash, block.header.timestamp))
      && var grown := w.templates.keys + [prePowHash];
         var queued := w.jobs.keys + [id];
         && r.0.templates.keys == (if |grown| > daaWindow then grown[1..] else grown)
         && r.0.jobs.keys == (if |grown| > daaWindow then queued[1..] else queued)
         && (id in r.0.jobs.items ==> r.0.jobs.items[id] == prePowHash)
    ensures |w.templates.keys| <= daaWindow ==> |r.0.templates.keys| <= daaWindow
    ensures forall h | h in r.0.templates.items && h != prePowHash ::
      h in w.templates.items && r.0.templates.items[h] == w.templates.items[h]
    ensures forall j | j in r.0.jobs.items && j != id :: j in w.jobs.items && r.0.jobs.items[j] == w.jobs.items[j]
    ensures prePowHash !in w.templates.items && prePowHash in r.0.templates.items ==>
      r.0.templates.items[prePowHash] == Template(block, PoW(prePowHash, block.header.timestamp))
  {
    if prePowHash in w.templates.items then (w, None)
    else
      var grown := Inserted(w, block, prePowHash, id);
      var w' := if |grown.templates.keys| > daaWindow
                then Window(RemoveFirst(grown.templates), RemoveFirst(grown.jobs))
                else grown;
      (w', Some(Announcement(id, prePowHash, block.header.timestamp)))
  }

  /** A new template that survives its own registration is reachable through the id
      announced for it: the id resolves to its hash, and the hash to its verifier. */
  lemma RegisteredResolves(w: Window, daaWindow: nat, block: Block, prePowHash: Hash, id: JobId)
    requires Coherent(w) && prePowHash !in w.templates.items && id !in w.jobs.items
    requires prePowHash in Registered(w, daaWindow, block, prePowHash, id).0.templates.items
    ensures var w' := Registered(w, daaWindow, block, prePowHash, id).0;
      HashOf(w', id) == Some(prePowHash) && PowOf(w', prePowHash) == Some(PoW(prePowHash, block.header.timestamp))
  {
    var w' := Registered(w, daaWindow, block, prePowHash, id).0;
    var grown := w.templates.keys + [prePowHash];
    var queued := w.jobs.keys + [id];
    if |grown| > daaWindow {
      assert w'.jobs.keys == queued[1..] && queued[1..][|queued| - 2] == id;
    } else {
      assert w'.jobs.keys == queued && queued[|queued| - 1] == id;
    }
    assert id in w'.jobs.items;
  }

  /** Registration keeps the job queue aligned with the templates. */
  lemma RegisteredCoherent(w: Window, daaWindow: nat, block: Block, prePowHash: Hash, id: JobId)
    requires Coherent(w) && id !in w.jobs.items
    ensures Coherent(Registered(w, daaWindow, block, prePowHash, id).0)
  {
    if prePowHash !in w.templates.items {
      var grown := Inserted(w, block, prePowHash, id);
      CoherentInserted(w, block, prePowHash, id);
      if |grown.templates.keys| > daaWindow {
        CoherentEvicted(grown);
      }
    }
  }

  /** The window right after `templates.set` and `deriveId`, before any eviction. */
  function Inserted(w: Window, block: Block, prePowHash: Hash, id: JobId): Window
  {
    Window(Put(w.templates, prePowHash, Template(block, PoW(prePowHash, block.header.timestamp))),
           Put(w.jobs, id, prePowHash))
  }

  lemma CoherentInserted(w: Window, block: Block, prePowHash: Hash, id: JobId)
    requires Coherent(w) && prePowHash !in w.templates.items && id !in w.jobs.items
    ensures Coherent(Inserted(w, block, prePowHash, id))
  {
    var w' := Inserted(w, block, prePowHash, id);
    assert w'.jobs.keys == w.jobs.keys + [id];
    assert w'.templates.keys == w.templates.keys + [prePowHash];
    forall i | 0 <= i < |w'.jobs.keys| ensures w'.jobs.items[w'.jobs.keys[i]] == w'.templates.keys[i] {
      if i < |w.jobs.keys| {
        assert w'.jobs.keys[i] != id;
      }
    }
  }

  lemma CoherentEvicted(w: Window)
    requires Coherent(w) && |w.templates.keys| > 0
    ensures Coherent(Window(RemoveFirst(w.templates), RemoveFirst(w.jobs)))
  {
    var w' := Window(RemoveFirst(w.templates), RemoveFirst(w.jobs));
    forall i | 0 <= i < |w'.jobs.keys| ensures w'.jobs.items[w'.jobs.keys[i]] == w'.templates.keys[i] {
      assert w'.jobs.keys[i] == w.jobs.keys[i + 1];
    }
  }

  /** Eviction is by registration order alone: the template registered first leaves,
      whatever its timestamp, and its job id stops resolving. */
  lemma {:induction false} EvictsOldest(w: Window, daaWindow: nat, block: Block, prePowHash: Hash, id: JobId)
    requires Coherent(w)
    requires prePowHash !in w.templates.items && id !in w.jobs.items
    requires |w.templates.keys| > 0 && |w.templates.keys| + 1 > daaWindow
    ensures var w' := Registered(w, daaWindow, block, prePowHash, id).0;
      && PowOf(w', w.templates.keys[0]) == None
      && HashOf(w', w.jobs.keys[0]) == None
      && w'.jobs.keys == w.jobs.keys[1..] + [id]
      && PowOf(w', prePowHash).Some?
      && HashOf(w', id) == Some(prePowHash)
  {
    EvictedTemplates(w, daaWindow, block, prePowHash, id);
    EvictedJobs(w, daaWindow, block, prePowHash, id);
  }

  /** On overflow, the first template leaves and the new one stays. */
  lemma EvictedTemplates(w: Window, daaWindow: nat, block: Block, prePowHash: Hash, id: JobId)
    requires prePowHash !in w.templates.items && id !in w.jobs.items
    requires |w.templates.keys| > 0 && |w.templates.keys| + 1 > daaWindow
    ensures var w' := Registered(w, daaWindow, block, prePowHash, id).0;
      PowOf(w', w.templates.keys[0]) == None && PowOf(w', prePowHash).Some?
  {
    var grown := Inserted(w, block, prePowHash, id).templates;
    assert grown.keys == w.templates.keys + [prePowHash];
    assert w.templates.keys[0] in w.templates.items;
  }

  /** On overflow, the first job id leaves and the new one resolves to the new hash. */
  lemma EvictedJobs(w: Window, daaWindow: nat, block: Block, prePowHash: Hash, id: JobId)
    requires id !in w.jobs.items && |w.jobs.keys| > 0
    requires prePowHash !in w.templates.items
    requires |w.templates.keys| + 1 > daaWindow
    ensures var w' := Registered(w, daaWindow, block, prePowHash, id).0;
      && w'.jobs.keys == w.jobs.keys[1..] + [id]
      && HashOf(w', w.jobs.keys[0]) == None
      && HashOf(w', id) == Some(prePowHash)
  {
    var grown := Inserted(w, block, prePowHash, id).jobs;
    assert grown.keys == w.jobs.keys + [id];
    assert w.jobs.keys[0] in w.jobs.items;
    assert grown.keys[1..] == w.jobs.keys[1..] + [id];
  }

  /** A job id that resolves always leads to a stored verifier: the two lookups of a
      share submission cannot disagree while the window is coherent. */
  lemma JobsResolve(w: Window, id: JobId)
    requires Coherent(w)
    requires HashOf(w, id).Some?
    ensures PowOf(w, HashOf(w, id).value).Some?
  {
    var i :| 0 <= i < |w.jobs.keys| && w.jobs.keys[i] == id;
    assert w.templates.keys[i] in w.templates.items;
  }

  /** The ids offered with a run of arrivals are all new to the queue and all different. */
  ghost predicate FreshIds(w: Window, arrivals: seq<(Block, Hash, JobId)>)
  {
    && (forall i | 0 <= i < |arrivals| :: arrivals[i].2 !in w.jobs.items)
    && (forall i, j | 0 <= i < j < |arrivals| :: arrivals[i].2 != arrivals[j].2)
  }

  /** Registering a run of templates one after the other, each with the id the job
      queue derives for it. */
  function RegisterAll(w: Window, daaWindow: nat, arrivals: seq<(Block, Hash, JobId)>): Window
    requires FreshIds(w, arrivals)
    decreases |arrivals|
  {
    if arrivals == [] then w
    else
      var next := Registered(w, daaWindow, arrivals[0].0, arrivals[0].1, arrivals[0].2).0;
      assert FreshIds(next, arrivals[1..]) by {
        forall i | 0 <= i < |arrivals[1..]| ensures arrivals[1..][i].2 !in next.jobs.items {
          assert arrivals[1..][i] == arrivals[i + 1];
        }
      }
      RegisterAll(next, daaWindow, arrivals[1..])
  }

  /** However many templates arrive, the window never holds more than `daaWindow`, and
      the job queue stays aligned with it. */
  lemma {:induction false} AlwaysBounded(w: Window, daaWindow: nat, arrivals: seq<(Block, Hash, JobId)>)
    requires Coherent(w) && |w.templates.keys| <= daaWindow
    requires FreshIds(w, arrivals)
    ensures var w' := RegisterAll(w, daaWindow, arrivals);
      Coherent(w') && |w'.templates.keys| <= daaWindow && |w'.jobs.keys| <= daaWindow
    decreases |arrivals|
  {
    if arrivals != [] {
      var next := Registered(w, daaWindow, arrivals[0].0, arrivals[0].1, arrivals[0].2).0;
      RegisteredCoherent(w, daaWindow, arrivals[0].0, arrivals[0].1, arrivals[0].2);
      assert FreshIds(next, arrivals[1..]) by {
        forall i | 0 <= i < |arrivals[1..]| ensures arrivals[1..][i].2 !in next.jobs.items {
          assert arrivals[1..][i] == arrivals[i + 1];
        }
      }
      AlwaysBounded(next, daaWindow, arrivals[1..]);
    }
  }

  /** `submit(hash, nonce)`: the nonce is written into the stored header whatever the
      node answers; on `success` the result is the finalized hash of that header,
      otherwise the call throws. `accepts` stands for the node's report and
      `finalize` for `Header.finalize`. */
  function Submitted(w: Window, hash: Hash, nonce: nat, accepts: Block -> bool, finalize: Header -> Hash): (r: (Window, Result<Hash, string>))
    requires hash in w.templates.items
    ensures r.0.jobs == w.jobs
    ensures r.0.templates.keys == w.templates.keys
    ensures hash in r.0.templates.items
    ensures var t := w.templates.items[hash];
      r.0.templates.items[hash] == t.(block := t.block.(header := t.block.header.(nonce := nonce)))
    ensures forall h | h in w.templates.items && h != hash :: r.0.templates.items[h] == w.templates.items[h]
    ensures var b := r.0.templates.items[hash].block;
      && b.header.nonce == nonce
      && (r.1.Ok? <==> accepts(b))
      && (r.1.Ok? ==> r.1.value == finalize(b.header))
    ensures Coherent(w) ==> Coherent(r.0)
  {
    var t := w.templates.items[hash];
    var block := t.block.(header := t.block.header.(nonce := nonce));
    var w' := w.(templates := Put(w.templates, hash, t.(block := block)));
    (w', if accepts(block) then Ok(finalize(block.header)) else Err("Block is on IBD/route is full"))
  }

  /** The cache object: the `templates` map and the job queue, updated in place. */
  class Templates {
    const daaWindow: nat
    var templates: OMap<Hash, Template>
    var jobs: OMap<JobId, Hash>

    function State(): Window
      reads this
    {
      Window(templates, jobs)
    }

    ghost predicate Valid()
      reads this
    {
      Coherent(State()) && |templates.keys| <= daaWindow
    }

    constructor (daaWindow: nat)
      ensures Valid() && this.daaWindow == daaWindow
      ensures templates.keys == [] && jobs.keys == []
    {
      this.daaWindow := daaWindow;
      templates := Empty();
      jobs := Empty();
    }

    function GetHash(id: JobId): (r: Option<Hash>)
      reads this
      ensures r == HashOf(State(), id)
    {
      if id in jobs.items then Some(jobs.items[id]) else None
    }

    function GetPoW(hash: Hash): (r: Option<PoW>)
      reads this
      ensures r == PowOf(State(), hash)
    {
      if hash in templates.items then Some(templates.items[hash].pow) else None
    }

    /** The job queue's `deriveId`, with the id it derives supplied as `newId`: the
        id is queued last against `hash`. */
    method DeriveId(hash: Hash, newId: JobId) returns (id: JobId)
      requires newId !in jobs.items
      modifies this`jobs
      ensures id == newId
      ensures jobs.keys == old(jobs.keys) + [id] && jobs.items == old(jobs.items)[id := hash]
    {
      id := newId;
      jobs := Put(jobs, id, hash);
    }

    /** The job queue's `expireNext`: the oldest id leaves. */
    method ExpireNext()
      requires |jobs.keys| > 0
      modifies this`jobs
      ensures jobs == RemoveFirst(old(jobs))
    {
      jobs := RemoveFirst(jobs);
    }

    /** The body of the `new-block-template` listener, `newId` being the id the job
        queue derives; the result is the callback's arguments, `None` when it is not
        called. */
    method Register(block: Block, prePowHash: Hash, newId: JobId) returns (announced: Option<Announcement>)
      requires Valid() && (prePowHash !in templates.items ==> newId !in jobs.items)
      modifies this`templates, this`jobs
      ensures Valid()
      ensures (State(), announced) == Registered(old(State()), daaWindow, block, prePowHash, newId)
    {
      if prePowHash in templates.items {
        return None;
      }
      ghost var w := State();
      templates := Put(templates, prePowHash, Template(block, PoW(prePowHash, block.header.timestamp)));
      var id := DeriveId(prePowHash, newId);
      ghost var grown := State();
      assert grown == Inserted(w, block, prePowHash, newId);
      if |templates.keys| > daaWindow {
        templates := RemoveFirst(templates);
        ExpireNext();
        assert State() == Window(RemoveFirst(grown.templates), RemoveFirst(grown.jobs));
      }
      announced := Some(Announcement(id, prePowHash, block.header.timestamp));
      RegisteredCoherent(w, daaWindow, block, prePowHash, newId);
    }

    /** `submit(hash, nonce)`; `hash` must be stored, as the `!` in the source assumes. */
    method Submit(hash: Hash, nonce: nat, accepts: Block -> bool, finalize: Header -> Hash) returns (r: Result<Hash, string>)
      requires Valid() && hash in templates.items
      modifies this
      ensures Valid()
      ensures (State(), r) == Submitted(old(State()), hash, nonce, accepts, finalize)
    {
      var template := templates.items[hash];
      var header := template.block.header.(nonce := nonce);
      var block := template.block.(header := header);
      templates := Put(templates, hash, template.(block := block));
      if accepts(block) {
        r := Ok(finalize(header));
      } else {
        r := Err("Block is on IBD/route is full");
      }
    }
  }
}
