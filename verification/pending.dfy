/** The pending-request table (`awaitingByName`): at most one outstanding
    request per command name, each with the waiter its acknowledgement goes to. */
module PendingTable {
  import opened Wrappers
  import opened Errors

  /** The response channel of one outstanding request, identified by the ticket
      it was issued under. */
  datatype Waiter = Waiter(ticket: nat)

  type Table = map<string, Waiter>

  /** `queueAwaitingByName`: refuses a name that is already waiting, otherwise
      adds exactly that name. */
  function Queue(t: Table, cmd: string, w: Waiter): (r: Result<Table, Error>)
    ensures r.Err? <==> cmd in t
    ensures r.Err? ==> r.error == Leaf(AlreadyAwaiting(cmd))
    ensures r.Ok? ==> r.value.Keys == t.Keys + {cmd} && r.value[cmd] == w
    ensures r.Ok? ==> forall k :: k in t ==> r.value[k] == t[k]
  {
    if cmd in t then Err(Leaf(AlreadyAwaiting(cmd))) else Ok(t[cmd := w])
  }

  /** `getAwaitingByName`: the waiter for `cmd`, None where Go returns a nil channel. */
  function Get(t: Table, cmd: string): (r: Option<Waiter>)
    ensures r.Some? <==> cmd in t
    ensures r.Some? ==> r.value == t[cmd]
  {
    if cmd in t then Some(t[cmd]) else None
  }

  /** `dropAwaitingByName`: removes `cmd` (if present) and nothing else, and
      returns what was registered under it. */
  function Drop(t: Table, cmd: string): (r: (Table, Option<Waiter>))
    ensures r.0.Keys == t.Keys - {cmd}
    ensures forall k :: k in r.0 ==> r.0[k] == t[k]
    ensures r.1 == Get(t, cmd)
  {
    (t - {cmd}, Get(t, cmd))
  }

  /** Dropping twice is dropping once; dropping an absent name changes nothing. */
  lemma DropIdempotent(t: Table, cmd: string)
    ensures Drop(Drop(t, cmd).0, cmd).0 == Drop(t, cmd).0
    ensures cmd !in t ==> Drop(t, cmd).0 == t
  {
  }

  /** Queue and Drop are inverse: registering a free name and then evicting it
      restores the table and hands back the registered waiter. */
  lemma QueueThenDrop(t: Table, cmd: string, w: Waiter)
    requires cmd !in t
    ensures Queue(t, cmd, w).Ok?
    ensures Drop(Queue(t, cmd, w).value, cmd) == (t, Some(w))
  {
    assert Queue(t, cmd, w).value - {cmd} == t;
  }

  /** Once a name is registered, every further registration of it fails until
      it is dropped; after the drop it succeeds again. */
  lemma OneWaiterPerName(t: Table, cmd: string, w1: Waiter, w2: Waiter)
    requires cmd !in t
    ensures Queue(Queue(t, cmd, w1).value, cmd, w2).Err?
    ensures Queue(Drop(Queue(t, cmd, w1).value, cmd).0, cmd, w2).Ok?
  {
  }
}
