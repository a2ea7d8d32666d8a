/**
 The two job stores. Jobs are heap objects whose lists are slices, shared with whoever holds
 the object; the stores keep what JSON encoding makes of a job and hand out fresh copies.
 */
module JobStore {
  import opened Base

  datatype StoredItem = StoredItem(
    title: string,
    source: string,
    sourceURL: string,
    link: string,
    publishDate: string,
    description: string
  )

  datatype URLErr = URLErr(url: string, error: string)

  /** A job as its JSON document: an empty list and an absent one are encoded alike, as absent. */
  datatype Doc = Doc(id: string, status: string, items: seq<StoredItem>, errors: seq<URLErr>, error: string)

  /** The backing store of a slice: whoever holds the slice may change its elements. */
  class Slice<T> {
    var elems: seq<T>

    constructor (elems: seq<T>)
      ensures this.elems == elems
    {
      this.elems := elems;
    }
  }

  /** A job object; null is the nil slice. */
  class Job {
    var id: string
    var status: string
    var items: Slice?<StoredItem>
    var errors: Slice?<URLErr>
    var error: string

    constructor (id: string, status: string, items: Slice?<StoredItem>, errors: Slice?<URLErr>, error: string)
      ensures this.id == id && this.status == status && this.items == items && this.errors == errors
          && this.error == error
    {
      this.id, this.status, this.items, this.errors, this.error := id, status, items, errors, error;
    }

    function Objects(): set<object>
      reads this
    {
      {this} + (if items != null then {items} else {}) + (if errors != null then {errors} else {})
    }
  }

  function Marshal(job: Job): Doc
    reads job, job.items, job.errors
  {
    Doc(job.id, job.status,
        if job.items == null then [] else job.items.elems,
        if job.errors == null then [] else job.errors.elems,
        job.error)
  }

  /** Decoding builds a new object with new lists; absent lists come back as nil. */
  method Unmarshal(doc: Doc) returns (job: Job)
    ensures fresh(job.Objects()) && Marshal(job) == doc
    ensures (job.items == null <==> doc.items == []) && (job.errors == null <==> doc.errors == [])
  {
    var items: Slice?<StoredItem> := null;
    if doc.items != [] {
      items := new Slice(doc.items);
    }
    var errors: Slice?<URLErr> := null;
    if doc.errors != [] {
      errors := new Slice(doc.errors);
    }
    job := new Job(doc.id, doc.status, items, errors, doc.error);
  }

  /** An object that lies in a region together with its lists. */
  ghost predicate Owned(job: Job, region: set<object>)
    reads job
  {
    job in region && (job.items != null ==> job.items in region) && (job.errors != null ==> job.errors in region)
  }

  const NOT_FOUND := "job not found"

  class InMemoryJobStore {
    var jobs: map<string, Job>
    ghost var docs: map<string, Doc>  // what the store answers
    ghost var repr: set<object>       // its private objects

    /** The object under a key is private to the store with its lists, and holds the document of that id. */
    ghost predicate Filed(k: string)
      requires k in jobs && k in docs
      reads this, repr
    {
      jobs[k] in repr && Owned(jobs[k], repr) && Marshal(jobs[k]) == docs[k] && docs[k].id == k
    }

    ghost predicate Valid()
      reads this, repr
    {
      jobs.Keys == docs.Keys && forall k :: k in jobs ==> Filed(k)
    }

    constructor ()
      ensures Valid() && docs == map[] && repr == {}
    {
      jobs, docs, repr := map[], map[], {};
    }

    /** Files an object of its own under its id. */
    method Keep(copied: Job)
      requires Valid()
      modifies this
      ensures Valid() && repr == old(repr) + copied.Objects()
      ensures docs == old(docs)[copied.id := Marshal(copied)]
    {
      jobs := jobs[copied.id := copied];
      docs := docs[copied.id := Marshal(copied)];
      repr := repr + copied.Objects();
      forall k | k in jobs
        ensures Filed(k)
      {
        if k != copied.id {
          assert old(Filed(k)) && jobs[k] == old(jobs[k]);
          assert Marshal(jobs[k]) == old(Marshal(jobs[k]));
        }
      }
    }

    method Create(job: Job)
      requires Valid()
      modifies this
      ensures Valid() && fresh(repr - old(repr)) && old(repr) <= repr
      ensures docs == old(docs)[job.id := Marshal(job)]
    {
      var copied := Unmarshal(Marshal(job));
      Keep(copied);
    }

    method Get(id: string) returns (r: Result<Job>)
      requires Valid()
      ensures r.Ok? <==> id in docs
      ensures r.Ok? ==> fresh(r.value.Objects()) && Marshal(r.value) == docs[id] && r.value.id == id
      ensures r.Ok? ==> (r.value.items == null <==> docs[id].items == [])
      ensures r.Ok? ==> (r.value.errors == null <==> docs[id].errors == [])
      ensures r.Err? ==> r.message == NOT_FOUND
    {
      if id !in jobs {
        return Err(NOT_FOUND);
      }
      var copied := Unmarshal(Marshal(jobs[id]));
      return Ok(copied);
    }

    /** Unlike creation, an update never adds a key. */
    method Update(job: Job) returns (r: Result<()>)
      requires Valid()
      modifies this
      ensures Valid() && fresh(repr - old(repr)) && old(repr) <= repr
      ensures r.Ok? <==> job.id in old(docs)
      ensures docs == if r.Ok? then old(docs)[job.id := Marshal(job)] else old(docs)
      ensures docs.Keys == old(docs.Keys)
      ensures r.Err? ==> r.message == NOT_FOUND
    {
      if job.id !in jobs {
        return Err(NOT_FOUND);
      }
      var copied := Unmarshal(Marshal(job));
      Keep(copied);
      return Ok(());
    }
  }

  /** The Redis store keeps documents; creating and updating are the same write. `reachable` says whether Redis
      answers the call. */
  class RedisJobStore {
    var data: map<string, Doc>

    ghost predicate Valid()
      reads this
    {
      forall k :: k in data ==> k == "job:" + data[k].id
    }

    constructor ()
      ensures Valid() && data == map[]
    {
      data := map[];
    }

    method Create(job: Job, reachable: bool) returns (r: Result<()>)
      requires Valid()
      modifies this
      ensures Valid() && (r.Ok? <==> reachable)
      ensures data == if r.Ok? then old(data)["job:" + job.id := Marshal(job)] else old(data)
    {
      if !reachable {
        return Err("redis: connection refused");
      }
      data := data["job:" + job.id := Marshal(job)];
      return Ok(());
    }

    method Update(job: Job, reachable: bool) returns (r: Result<()>)
      requires Valid()
      modifies this
      ensures Valid() && (r.Ok? <==> reachable)
      ensures data == if r.Ok? then old(data)["job:" + job.id := Marshal(job)] else old(data)
    {
      r := Create(job, reachable);
    }

    method Get(id: string, reachable: bool) returns (r: Result<Job>)
      requires Valid()
      ensures r.Ok? <==> reachable && "job:" + id in data
      ensures r.Ok? ==> fresh(r.value.Objects()) && Marshal(r.value) == data["job:" + id] && r.value.id == id
      ensures r.Err? && reachable ==> r.message == NOT_FOUND
    {
      if !reachable {
        return Err("redis: connection refused");
      }
      if "job:" + id !in data {
        return Err(NOT_FOUND);
      }
      assert ("job:" + id)[4..] == id && ("job:" + data["job:" + id].id)[4..] == data["job:" + id].id;
      var job := Unmarshal(data["job:" + id]);
      return Ok(job);
    }
  }

  /******* The stores as maps *******/

  /** An operation, with the document of the job that is passed. */
  datatype Op = Create(doc: Doc) | Update(doc: Doc) | Get(id: string)

  /** What a caller learns: whether a write was taken, or the document found. */
  datatype Reply = Written(ok: bool) | Found(doc: Option<Doc>)

  function ReadReply(view: map<string, Doc>, id: string): Reply {
    Found(if id in view then Some(view[id]) else None)
  }

  function InMemory(view: map<string, Doc>, op: Op): (Reply, map<string, Doc>) {
    match op
    case Create(d) => (Written(true), view[d.id := d])
    case Update(d) => if d.id in view then (Written(true), view[d.id := d]) else (Written(false), view)
    case Get(id) => (ReadReply(view, id), view)
  }

  function InRedis(view: map<string, Doc>, op: Op): (Reply, map<string, Doc>) {
    match op
    case Create(d) => (Written(true), view[d.id := d])
    case Update(d) => (Written(true), view[d.id := d])
    case Get(id) => (ReadReply(view, id), view)
  }

  /** The replies and the final map of a sequence of operations. */
  function MemoryRun(view: map<string, Doc>, ops: seq<Op>): (seq<Reply>, map<string, Doc>) {
    if ops == [] then ([], view)
    else
      var before := MemoryRun(view, ops[..|ops| - 1]);
      var (reply, after) := InMemory(before.1, ops[|ops| - 1]);
      (before.0 + [reply], after)
  }

  function RedisRun(view: map<string, Doc>, ops: seq<Op>): (seq<Reply>, map<string, Doc>) {
    if ops == [] then ([], view)
    else
      var before := RedisRun(view, ops[..|ops| - 1]);
      var (reply, after) := InRedis(before.1, ops[|ops| - 1]);
      (before.0 + [reply], after)
  }

  /** The ids that a sequence of writes names. */
  function Named(ops: seq<Op>): set<string> {
    set op | op in ops && !op.Get? :: op.doc.id
  }

  /** Every update names a job that is known or was named earlier in the sequence. */
  predicate UpdatesFollowCreates(known: set<string>, ops: seq<Op>) {
    ops == [] ||
    (var n := |ops| - 1;
     UpdatesFollowCreates(known, ops[..n]) && (ops[n].Update? ==> ops[n].doc.id in known + Named(ops[..n])))
  }

  lemma NamedAppend(ops: seq<Op>, op: Op)
    ensures Named(ops + [op]) == if op.Get? then Named(ops) else Named(ops) + {op.doc.id}
  {
    forall o | o in ops
      ensures o in ops + [op]
    {
    }
    assert op in ops + [op];
  }

  lemma {:induction false} RunLengths(view: map<string, Doc>, ops: seq<Op>)
    ensures |MemoryRun(view, ops).0| == |RedisRun(view, ops).0| == |ops|
    ensures RedisRun(view, ops).1.Keys == view.Keys + Named(ops)
  {
    if ops != [] {
      var n := |ops| - 1;
      RunLengths(view, ops[..n]);
      NamedAppend(ops[..n], ops[n]);
      assert ops == ops[..n] + [ops[n]];
    }
  }

  /** The stores give the same replies exactly on the sequences in which each update follows a write of its id, and
      then they hold the same. */
  lemma {:induction false} StoresAgreeExactly(view: map<string, Doc>, ops: seq<Op>)
    ensures MemoryRun(view, ops).0 == RedisRun(view, ops).0 <==> UpdatesFollowCreates(view.Keys, ops)
    ensures UpdatesFollowCreates(view.Keys, ops) ==> MemoryRun(view, ops).1 == RedisRun(view, ops).1
  {
    if ops != [] {
      var n := |ops| - 1;
      StoresAgreeExactly(view, ops[..n]);
      RunLengths(view, ops[..n]);
      var memory, redis := MemoryRun(view, ops[..n]), RedisRun(view, ops[..n]);
      var a, b := InMemory(memory.1, ops[n]), InRedis(redis.1, ops[n]);
      assert MemoryRun(view, ops).0 == memory.0 + [a.0] && RedisRun(view, ops).0 == redis.0 + [b.0];
      assert MemoryRun(view, ops).0[..n] == memory.0 && RedisRun(view, ops).0[..n] == redis.0;
      assert MemoryRun(view, ops).0[n] == a.0 && RedisRun(view, ops).0[n] == b.0;
    }
  }

  /** The reply to the last of a sequence of operations on the one store, and on the other. */
  function LastReply(view: map<string, Doc>, ops: seq<Op>, op: Op, redis: bool): Reply {
    RunLengths(view, ops + [op]);
    if redis then RedisRun(view, ops + [op]).0[|ops|] else MemoryRun(view, ops + [op]).0[|ops|]
  }

  lemma OneMoreOp(view: map<string, Doc>, ops: seq<Op>, op: Op, redis: bool)
    ensures LastReply(view, ops, op, redis)
        == if redis then InRedis(RedisRun(view, ops).1, op).0 else InMemory(MemoryRun(view, ops).1, op).0
    ensures MemoryRun(view, ops + [op]).1 == InMemory(MemoryRun(view, ops).1, op).1
    ensures RedisRun(view, ops + [op]).1 == InRedis(RedisRun(view, ops).1, op).1
  {
    assert (ops + [op])[..|ops|] == ops;
    RunLengths(view, ops);
  }

  /** Reads give the last document written: creating always writes, updating in memory only what is there, in Redis
      always, and reading changes nothing. */
  lemma ReadsGiveTheLastWrite(view: map<string, Doc>, ops: seq<Op>, op: Op, id: string, redis: bool)
    ensures LastReply(view, [], Get(id), redis) == Found(if id in view then Some(view[id]) else None)
    ensures LastReply(view, ops + [op], Get(id), redis)
        == if op.Get? || op.doc.id != id then LastReply(view, ops, Get(id), redis)
           else if op.Create? || redis || LastReply(view, ops, Get(id), redis) != Found(None) then Found(Some(op.doc))
           else Found(None)
    ensures op.Create? ==> LastReply(view, ops, op, redis) == Written(true)
    ensures op.Update? ==>
              LastReply(view, ops, op, redis)
              == Written(redis || LastReply(view, ops, Get(op.doc.id), redis) != Found(None))
  {
    OneMoreOp(view, [], Get(id), redis);
    OneMoreOp(view, ops, Get(id), redis);
    OneMoreOp(view, ops, op, redis);
    OneMoreOp(view, ops + [op], Get(id), redis);
    if !op.Get? {
      OneMoreOp(view, ops, Get(op.doc.id), redis);
    }
  }

  /******* The stores under callers that change what they hold *******/

  /** Callers change jobs they hold, and the elements of their lists, in any way: the store does not notice. */
  method Tamper(store: InMemoryJobStore, held: set<object>)
    requires store.Valid() && held !! store.repr && store !in held
    modifies held
    ensures store.Valid()
  {
    modify held;
  }

  /** A caller stores a job it goes on holding, changes it, reads the job back and changes that too: the store
      still answers with the document stored. */
  method CallersCannotReachIn(store: InMemoryJobStore, job: Job) returns (again: Result<Job>)
    requires store.Valid() && job.Objects() !! store.repr
    modifies store, job.Objects()
    ensures store.Valid() && store.docs == old(store.docs)[old(job.id) := old(Marshal(job))]
    ensures again.Ok? && Marshal(again.value) == old(Marshal(job))
  {
    var id := job.id;
    store.Create(job);
    Tamper(store, job.Objects());
    var got := store.Get(id);
    Tamper(store, got.value.Objects());
    again := store.Get(id);
  }

  /** A caller stores a job it made and goes on holding it. */
  method PerformCreate(store: InMemoryJobStore, doc: Doc) returns (reply: Reply, held: set<object>)
    requires store.Valid()
    modifies store
    ensures store.Valid() && fresh(store.repr - old(store.repr)) && old(store.repr) <= store.repr
    ensures (reply, store.docs) == InMemory(old(store.docs), Op.Create(doc))
    ensures fresh(held) && held !! store.repr && store !in held
  {
    var job := Unmarshal(doc);
    held := job.Objects();
    store.Create(job);
    reply := Written(true);
  }

  method PerformUpdate(store: InMemoryJobStore, doc: Doc) returns (reply: Reply, held: set<object>)
    requires store.Valid()
    modifies store
    ensures store.Valid() && fresh(store.repr - old(store.repr)) && old(store.repr) <= store.repr
    ensures (reply, store.docs) == InMemory(old(store.docs), Op.Update(doc))
    ensures fresh(held) && held !! store.repr && store !in held
  {
    var job := Unmarshal(doc);
    held := job.Objects();
    assert Marshal(job) == doc && job.id == doc.id && held !! store.repr && store !in held;
    var r := store.Update(job);
    assert r.Ok? <==> doc.id in old(store.docs);
    reply := Written(r.Ok?);
  }

  /** A caller holds the job it got back. */
  method PerformGet(store: InMemoryJobStore, id: string) returns (reply: Reply, held: set<object>)
    requires store.Valid()
    modifies store
    ensures store.Valid() && fresh(store.repr - old(store.repr)) && old(store.repr) <= store.repr
    ensures (reply, store.docs) == InMemory(old(store.docs), Op.Get(id))
    ensures fresh(held) && held !! store.repr && store !in held
  {
    var r := store.Get(id);
    if r.Ok? {
      reply, held := Found(Some(Marshal(r.value))), r.value.Objects();
    } else {
      reply, held := Found(None), {};
    }
  }

  /** One operation; afterwards the caller holds the job it passed or got back. */
  method Perform(store: InMemoryJobStore, op: Op) returns (reply: Reply, held: set<object>)
    requires store.Valid()
    modifies store
    ensures store.Valid() && fresh(store.repr - old(store.repr)) && old(store.repr) <= store.repr
    ensures (reply, store.docs) == InMemory(old(store.docs), op)
    ensures fresh(held) && held !! store.repr && store !in held
  {
    match op
    case Create(doc) => reply, held := PerformCreate(store, doc);
    case Update(doc) => reply, held := PerformUpdate(store, doc);
    case Get(id) => reply, held := PerformGet(store, id);
  }

  /** No aliasing, along any sequence of operations: although callers change every job they ever passed or got
      back, in any way and between any two operations, the replies and the contents are those of a map of
      documents. */
  method RunInMemory(store: InMemoryJobStore, ops: seq<Op>) returns (replies: seq<Reply>)
    requires store.Valid()
    modifies store
    ensures store.Valid() && fresh(store.repr - old(store.repr))
    ensures (replies, store.docs) == MemoryRun(old(store.docs), ops)
  {
    replies := [];
    var held: set<object> := {};
    for i := 0 to |ops|
      invariant store.Valid() && fresh(store.repr - old(store.repr)) && fresh(held)
      invariant held !! store.repr && store !in held
      invariant (replies, store.docs) == MemoryRun(old(store.docs), ops[..i])
    {
      assert ops[..i + 1][..i] == ops[..i];
      var reply, more := Perform(store, ops[i]);
      replies, held := replies + [reply], held + more;
      Tamper(store, held);
    }
    assert ops[..|ops|] == ops;
  }

  /** The documents of a Redis store by id. */
  ghost predicate Holds(data: map<string, Doc>, view: map<string, Doc>) {
    && (forall id :: id in view <==> "job:" + id in data)
    && (forall id :: id in view ==> data["job:" + id] == view[id])
  }

  lemma HoldsAfterWrite(data: map<string, Doc>, view: map<string, Doc>, doc: Doc)
    requires Holds(data, view)
    ensures Holds(data["job:" + doc.id := doc], view[doc.id := doc])
  {
    forall id
      ensures "job:" + id == "job:" + doc.id <==> id == doc.id
    {
      assert ("job:" + id)[4..] == id && ("job:" + doc.id)[4..] == doc.id;
    }
  }

  /** One operation on a Redis store that answers. */
  method PerformInRedis(store: RedisJobStore, op: Op, ghost view: map<string, Doc>) returns (reply: Reply)
    requires store.Valid() && Holds(store.data, view)
    modifies store
    ensures store.Valid() && reply == InRedis(view, op).0 && Holds(store.data, InRedis(view, op).1)
  {
    match op
    case Create(doc) =>
      HoldsAfterWrite(store.data, view, doc);
      var job := Unmarshal(doc);
      var r := store.Create(job, true);
      reply := Written(r.Ok?);
    case Update(doc) =>
      HoldsAfterWrite(store.data, view, doc);
      var job := Unmarshal(doc);
      var r := store.Update(job, true);
      reply := Written(r.Ok?);
    case Get(id) =>
      var r := store.Get(id, true);
      reply := Found(if r.Ok? then Some(Marshal(r.value)) else None);
  }

  method RunInRedis(store: RedisJobStore, ops: seq<Op>, ghost view: map<string, Doc>) returns (replies: seq<Reply>)
    requires store.Valid() && Holds(store.data, view)
    modifies store
    ensures store.Valid() && replies == RedisRun(view, ops).0 && Holds(store.data, RedisRun(view, ops).1)
  {
    replies := [];
    for i := 0 to |ops|
      invariant store.Valid() && replies == RedisRun(view, ops[..i]).0 && Holds(store.data, RedisRun(view, ops[..i]).1)
    {
      assert ops[..i + 1][..i] == ops[..i];
      var reply := PerformInRedis(store, ops[i], RedisRun(view, ops[..i]).1);
      replies := replies + [reply];
    }
    assert ops[..|ops|] == ops;
  }

  /** The two stores side by side: from the same contents they give the same replies to a sequence of operations if
      and only if each update in it follows a write of its id; then they also end with the same contents. */
  method RunBoth(memory: InMemoryJobStore, redis: RedisJobStore, ops: seq<Op>)
    returns (replies: seq<Reply>, replies': seq<Reply>)
    requires memory.Valid() && redis.Valid() && Holds(redis.data, memory.docs)
    modifies memory, redis
    ensures replies == replies' <==> UpdatesFollowCreates(old(memory.docs).Keys, ops)
    ensures replies == replies' ==> Holds(redis.data, memory.docs)
  {
    ghost var view := memory.docs;
    replies := RunInMemory(memory, ops);
    replies' := RunInRedis(redis, ops, view);
    StoresAgreeExactly(view, ops);
  }
}
