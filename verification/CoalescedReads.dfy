/**
 coalesceFreshReads: one batcher per key, kept only while somebody awaits it.
 Batchers are the states of module FreshReads, numbered in the order they were made.
 */
module CoalescedReads {
  import opened FreshReads

  /** A call of the coalesced function: the batcher it joined and its waiter there. */
  datatype Ticket<K> = Ticket(key: K, batcher: nat, waiter: nat)

  datatype Slot = Slot(batcher: nat, callers: int)

  datatype Table<K, V> = Table(
    entries: map<K, Slot>,
    keys: seq<K>,
    batchers: seq<State<K, V>>,
    tickets: seq<Ticket<K>>,
    open: set<nat>,
    returned: map<nat, Outcome<V>>)

  const DEFAULT_BATCH_SIZE := 128

  datatype Move<K, V> = Ask(key: K) | FireAt(batcher: nat) | LoadEndsAt(batcher: nat, result: LoadResult<K, V>) | Return(ticket: nat)

  /** The load of a single key: a map with exactly that key, or an error. */
  predicate SingleResult<K(==), V>(r: LoadResult<K, V>, k: K) {
    r.Loaded? ==> r.values.Keys == {k}
  }

  predicate Possible<K(==), V>(t: Table<K, V>, move: Move<K, V>) {
    match move
    case Ask(k) => k in t.entries ==> t.entries[k].batcher < |t.batchers|
    case FireAt(b) => b < |t.batchers| && t.batchers[b].scheduled
    case LoadEndsAt(b, r) => b < |t.batchers| && b < |t.keys| && t.batchers[b].running && SingleResult(r, t.keys[b])
    case Return(c) =>
      && c in t.open && c < |t.tickets| && t.tickets[c].batcher < |t.batchers|
      && t.tickets[c].waiter in t.batchers[t.tickets[c].batcher].settled && t.tickets[c].key in t.entries
  }

  /** The entry of a key, made when nobody awaits it yet. */
  function SlotFor<K(==), V>(t: Table<K, V>, k: K): Slot {
    if k in t.entries then t.entries[k] else Slot(|t.batchers|, 0)
  }

  function BatcherFor<K(==), V>(t: Table<K, V>, k: K): State<K, V>
    requires Possible(t, Ask(k))
  {
    if k in t.entries then t.batchers[t.entries[k].batcher] else Initial(DEFAULT_BATCH_SIZE)
  }

  /** The call up to its await: find or make the entry, count the caller, join the batch. */
  function AskFor<K(==), V>(t: Table<K, V>, k: K): Table<K, V>
    requires Possible(t, Ask(k))
  {
    var slot := SlotFor(t, k);
    var b := BatcherFor(t, k);
    var isNew := k !in t.entries;
    t.(entries := t.entries[k := slot.(callers := slot.callers + 1)],
       keys := if isNew then t.keys + [k] else t.keys,
       batchers := if isNew then t.batchers + [Read(b, k)] else t.batchers[slot.batcher := Read(b, k)],
       tickets := t.tickets + [Ticket(k, slot.batcher, |b.calls|)],
       open := t.open + {|t.tickets|})
  }

  /** The call after its await: the caller leaves, and the last one removes the entry. */
  function ReturnTo<K(==), V>(t: Table<K, V>, c: nat): Table<K, V>
    requires Possible(t, Return(c))
  {
    var ticket := t.tickets[c];
    var slot := t.entries[ticket.key];
    var callers := slot.callers - 1;
    t.(entries := if callers == 0 then t.entries - {ticket.key} else t.entries[ticket.key := slot.(callers := callers)],
       open := t.open - {c},
       returned := t.returned[c := t.batchers[ticket.batcher].settled[ticket.waiter].outcome])
  }

  function Advance<K(==), V>(t: Table<K, V>, move: Move<K, V>): Table<K, V>
    requires Possible(t, move)
  {
    match move
    case Ask(k) => AskFor(t, k)
    case FireAt(b) => t.(batchers := t.batchers[b := BeginFlush(t.batchers[b])])
    case LoadEndsAt(b, r) => t.(batchers := t.batchers[b := EndFlush(t.batchers[b], r)])
    case Return(c) => ReturnTo(t, c)
  }

  predicate Trace<K(==), V(==)>(s: Table<K, V>, moves: seq<Move<K, V>>, t: Table<K, V>)
    decreases |moves|
  {
    if moves == [] then s == t else Possible(s, moves[0]) && Trace(Advance(s, moves[0]), moves[1..], t)
  }

  function Empty<K, V>(): Table<K, V> {
    Table(map[], [], [], [], {}, map[])
  }

  // ----- the invariant -----

  function OpenOf<K, V>(t: Table<K, V>, b: nat): set<nat> {
    set c <- t.open | c < |t.tickets| && t.tickets[c].batcher == b
  }

  ghost predicate BatcherOk<K(!new), V(!new)>(t: Table<K, V>, b: nat) {
    b < |t.batchers| && b < |t.keys| ==>
      && Inv(t.batchers[b])
      && (forall w | 0 <= w < |t.batchers[b].calls| :: t.batchers[b].calls[w].key == t.keys[b])
      && (forall w <- t.batchers[b].settled :: t.batchers[b].settled[w].outcome != Resolved(None))
  }

  /** A waiter whose promise is not settled belongs to an open call. */
  ghost predicate WaiterOk<K(!new), V(!new)>(t: Table<K, V>, b: nat, w: nat) {
    b < |t.batchers| && b < |t.keys| && w < |t.batchers[b].calls| && w !in t.batchers[b].settled ==>
      exists c <- t.open :: c < |t.tickets| && t.tickets[c] == Ticket(t.keys[b], b, w)
  }

  ghost predicate SlotOk<K(!new), V(!new)>(t: Table<K, V>, k: K) {
    k in t.entries ==>
      && var slot := t.entries[k];
      && slot.batcher < |t.batchers| && slot.batcher < |t.keys| && t.keys[slot.batcher] == k
      && slot.callers == |OpenOf(t, slot.batcher)| && slot.callers > 0
  }

  ghost predicate TicketOk<K(!new), V(!new)>(t: Table<K, V>, c: nat) {
    c in t.open ==>
      && c < |t.tickets|
      && var ticket := t.tickets[c];
      && ticket.key in t.entries && t.entries[ticket.key].batcher == ticket.batcher
      && ticket.batcher < |t.batchers| && ticket.waiter < |t.batchers[ticket.batcher].calls|
  }

  ghost predicate TableOk<K(!new), V(!new)>(t: Table<K, V>) {
    && |t.keys| == |t.batchers|
    && (forall b: nat :: BatcherOk(t, b))
    && (forall b: nat, w: nat :: WaiterOk(t, b, w))
    && (forall k :: SlotOk(t, k))
    && (forall c: nat :: TicketOk(t, c))
    && (forall c <- t.returned :: t.returned[c] != Resolved(None))
  }

  // ----- every step keeps the invariant -----

  lemma InitialInv<K(!new), V(!new)>(max: nat)
    requires max >= 1
    ensures Inv(Initial<K, V>(max))
  {
  }

  lemma AskBatcher<K(!new), V(!new)>(t: Table<K, V>, k: K, b: nat)
    requires TableOk(t) && Possible(t, Ask(k))
    ensures BatcherOk(AskFor(t, k), b)
  {
    var slot := SlotFor(t, k);
    assert SlotOk(t, k) && BatcherOk(t, b);
    if b == slot.batcher {
      ReadBatcher(t, k);
    } else {
      assert b < |t.batchers| && b < |t.keys| ==>
        AskFor(t, k).batchers[b] == t.batchers[b] && AskFor(t, k).keys[b] == t.keys[b];
    }
  }

  /** The batcher of the entry after one more read of its key. */
  lemma ReadBatcher<K(!new), V(!new)>(t: Table<K, V>, k: K)
    requires TableOk(t) && Possible(t, Ask(k))
    ensures BatcherOk(AskFor(t, k), SlotFor(t, k).batcher)
  {
    var b := SlotFor(t, k).batcher;
    assert SlotOk(t, k) && BatcherOk(t, b);
    BatcherForKey(t, k);
    ReadKeepsInv(BatcherFor(t, k), k);
    ReadOwnKey(BatcherFor(t, k), k);
    assert AskFor(t, k).batchers[b] == Read(BatcherFor(t, k), k) && AskFor(t, k).keys[b] == k;
  }

  /** All reads of a batcher are for this key, and it is the batcher's own state. */
  ghost predicate Serves<K(!new), V(!new)>(s: State<K, V>, k: K) {
    && (forall w | 0 <= w < |s.calls| :: s.calls[w].key == k)
    && (forall w <- s.settled :: s.settled[w].outcome != Resolved(None))
  }

  lemma BatcherForKey<K(!new), V(!new)>(t: Table<K, V>, k: K)
    requires TableOk(t) && Possible(t, Ask(k))
    ensures Inv(BatcherFor(t, k)) && Serves(BatcherFor(t, k), k)
  {
    if k in t.entries {
      assert SlotOk(t, k) && BatcherOk(t, t.entries[k].batcher);
    } else {
      InitialInv<K, V>(DEFAULT_BATCH_SIZE);
    }
  }

  lemma ReadOwnKey<K(!new), V(!new)>(s: State<K, V>, k: K)
    requires Serves(s, k)
    ensures Serves(Read(s, k), k)
  {
  }

  lemma AskWaiter<K(!new), V(!new)>(t: Table<K, V>, k: K, b: nat, w: nat)
    requires TableOk(t) && Possible(t, Ask(k))
    ensures WaiterOk(AskFor(t, k), b, w)
  {
    var t' := AskFor(t, k);
    var n := |t.tickets|;
    assert SlotOk(t, k) && WaiterOk(t, b, w);
    if b == SlotFor(t, k).batcher && w == |BatcherFor(t, k).calls| {
      assert n in t'.open && t'.tickets[n] == Ticket(k, b, w);
    } else if b < |t.batchers| && w < |t.batchers[b].calls| && w !in t.batchers[b].settled {
      var c :| c in t.open && c < |t.tickets| && t.tickets[c] == Ticket(t.keys[b], b, w);
      assert c in t'.open && t'.tickets[c] == t.tickets[c];
    }
  }

  lemma AskOpen<K(!new), V(!new)>(t: Table<K, V>, k: K, b: nat)
    requires TableOk(t) && Possible(t, Ask(k))
    ensures |OpenOf(AskFor(t, k), b)| == |OpenOf(t, b)| + (if b == SlotFor(t, k).batcher then 1 else 0)
    ensures b >= |t.batchers| ==> OpenOf(t, b) == {}
  {
    var n := |t.tickets|;
    forall c <- t.open ensures c < n && t.tickets[c].batcher < |t.batchers| { assert TicketOk(t, c); }
    assert OpenOf(AskFor(t, k), b) == OpenOf(t, b) + (if b == SlotFor(t, k).batcher then {n} else {});
  }

  lemma AskSlot<K(!new), V(!new)>(t: Table<K, V>, k: K, j: K)
    requires TableOk(t) && Possible(t, Ask(k))
    ensures SlotOk(AskFor(t, k), j)
  {
    assert SlotOk(t, j) && SlotOk(t, k);
    AskOpen(t, k, SlotFor(t, j).batcher);
  }

  lemma AskTicket<K(!new), V(!new)>(t: Table<K, V>, k: K, c: nat)
    requires TableOk(t) && Possible(t, Ask(k))
    ensures TicketOk(AskFor(t, k), c)
  {
    assert TicketOk(t, c) && SlotOk(t, k);
  }

  lemma AskKeeps<K(!new), V(!new)>(t: Table<K, V>, k: K)
    requires TableOk(t) && Possible(t, Ask(k))
    ensures TableOk(AskFor(t, k))
  {
    forall b: nat ensures BatcherOk(AskFor(t, k), b) { AskBatcher(t, k, b); }
    forall b: nat, w: nat ensures WaiterOk(AskFor(t, k), b, w) { AskWaiter(t, k, b, w); }
    forall j ensures SlotOk(AskFor(t, k), j) { AskSlot(t, k, j); }
    forall c: nat ensures TicketOk(AskFor(t, k), c) { AskTicket(t, k, c); }
  }

  /** A step of batcher b0 that settles at least what was settled and keeps its calls. */
  lemma BatcherStepKeeps<K(!new), V(!new)>(t: Table<K, V>, b0: nat, s: State<K, V>)
    requires TableOk(t) && b0 < |t.batchers| && Inv(s)
    requires s.calls == t.batchers[b0].calls && t.batchers[b0].settled.Keys <= s.settled.Keys
    requires forall w <- s.settled :: s.settled[w].outcome != Resolved(None)
    ensures TableOk(t.(batchers := t.batchers[b0 := s]))
  {
    var t' := t.(batchers := t.batchers[b0 := s]);
    forall b: nat ensures BatcherOk(t', b) { assert BatcherOk(t, b); }
    forall b: nat, w: nat ensures WaiterOk(t', b, w) { assert WaiterOk(t, b, w); }
    forall j ensures SlotOk(t', j) { assert SlotOk(t, j) && OpenOf(t', SlotFor(t, j).batcher) == OpenOf(t, SlotFor(t, j).batcher); }
    forall c: nat ensures TicketOk(t', c) { assert TicketOk(t, c); }
  }

  lemma FireKeeps<K(!new), V(!new)>(t: Table<K, V>, b: nat)
    requires TableOk(t) && Possible(t, FireAt(b))
    ensures TableOk(Advance(t, FireAt(b)))
  {
    assert BatcherOk(t, b);
    BeginFlushKeepsInv(t.batchers[b]);
    BatcherStepKeeps(t, b, BeginFlush(t.batchers[b]));
  }

  lemma LoadEndsKeeps<K(!new), V(!new)>(t: Table<K, V>, b: nat, r: LoadResult<K, V>)
    requires TableOk(t) && Possible(t, LoadEndsAt(b, r))
    ensures TableOk(Advance(t, LoadEndsAt(b, r)))
  {
    assert BatcherOk(t, b);
    EndFlushKeepsInv(t.batchers[b], r);
    SingleSettles(t.batchers[b], t.keys[b], r);
    BatcherStepKeeps(t, b, EndFlush(t.batchers[b], r));
  }

  /** A batcher of one key always finds its key in the result. */
  lemma SingleSettles<K(!new), V(!new)>(s: State<K, V>, k: K, r: LoadResult<K, V>)
    requires Inv(s) && s.running && SingleResult(r, k)
    requires forall w | 0 <= w < |s.calls| :: s.calls[w].key == k
    requires forall w <- s.settled :: s.settled[w].outcome != Resolved(None)
    ensures var t := EndFlush(s, r); t.calls == s.calls && s.settled.Keys <= t.settled.Keys
    ensures forall w <- EndFlush(s, r).settled :: EndFlush(s, r).settled[w].outcome != Resolved(None)
  {
    SettleAllSpec(s, s.settled, s.batch, s.loads, r, s.loads - 1);
  }

  lemma ReturnWaiter<K(!new), V(!new)>(t: Table<K, V>, c0: nat, b: nat, w: nat)
    requires TableOk(t) && Possible(t, Return(c0))
    ensures WaiterOk(ReturnTo(t, c0), b, w)
  {
    assert WaiterOk(t, b, w);
    if b < |t.batchers| && w < |t.batchers[b].calls| && w !in t.batchers[b].settled {
      var c :| c in t.open && c < |t.tickets| && t.tickets[c] == Ticket(t.keys[b], b, w);
      assert c != c0 && c in ReturnTo(t, c0).open;
    }
  }

  lemma ReturnOpen<K(!new), V(!new)>(t: Table<K, V>, c0: nat, b: nat)
    requires Possible(t, Return(c0))
    ensures |OpenOf(ReturnTo(t, c0), b)| == |OpenOf(t, b)| - (if b == t.tickets[c0].batcher then 1 else 0)
  {
    assert OpenOf(ReturnTo(t, c0), b) == OpenOf(t, b) - (if b == t.tickets[c0].batcher then {c0} else {});
  }

  lemma ReturnKeeps<K(!new), V(!new)>(t: Table<K, V>, c0: nat)
    requires TableOk(t) && Possible(t, Return(c0))
    ensures TableOk(ReturnTo(t, c0))
  {
    var t' := ReturnTo(t, c0);
    var ticket := t.tickets[c0];
    assert TicketOk(t, c0) && BatcherOk(t, ticket.batcher) && SlotOk(t, ticket.key);
    forall b: nat ensures BatcherOk(t', b) { assert BatcherOk(t, b); }
    forall b: nat, w: nat ensures WaiterOk(t', b, w) { ReturnWaiter(t, c0, b, w); }
    forall j ensures SlotOk(t', j) {
      assert SlotOk(t, j);
      ReturnOpen(t, c0, SlotFor(t, j).batcher);
    }
    forall c: nat ensures TicketOk(t', c) { ReturnTicket(t, c0, c); }
  }

  /** The entry is removed only when no other call is open. */
  lemma ReturnTicket<K(!new), V(!new)>(t: Table<K, V>, c0: nat, c: nat)
    requires TableOk(t) && Possible(t, Return(c0))
    ensures TicketOk(ReturnTo(t, c0), c)
  {
    assert TicketOk(t, c) && TicketOk(t, c0);
    if c in t.open && c != c0 && t.tickets[c].key == t.tickets[c0].key {
      var b := t.tickets[c0].batcher;
      assert SlotOk(t, t.tickets[c0].key);
      assert {c, c0} <= OpenOf(t, b);
      assert |OpenOf(t, b)| >= |{c, c0}| == 2 by { SubsetSize({c, c0}, OpenOf(t, b)); }
    }
  }

  lemma SubsetSize<T>(a: set<T>, b: set<T>)
    requires a <= b
    ensures |a| <= |b|
  {
    assert b == a + (b - a);
  }

  lemma {:induction false} TraceKeeps<K(!new), V(!new)>(s: Table<K, V>, moves: seq<Move<K, V>>, t: Table<K, V>)
    requires TableOk(s) && Trace(s, moves, t)
    ensures TableOk(t)
    decreases |moves|
  {
    if moves != [] {
      match moves[0] {
        case Ask(k) => AskKeeps(s, k);
        case FireAt(b) => FireKeeps(s, b);
        case LoadEndsAt(b, r) => LoadEndsKeeps(s, b, r);
        case Return(c) => ReturnKeeps(s, c);
      }
      TraceKeeps(Advance(s, moves[0]), moves[1..], t);
    }
  }

  // ----- what coalescing promises -----

  /** A call can always be made, and once its read is settled it can always return. */
  lemma CallsGoThrough<K(!new), V(!new)>(t: Table<K, V>, k: K, c: nat)
    requires TableOk(t)
    ensures Possible(t, Ask(k))
    ensures c in t.open ==> c < |t.tickets| && t.tickets[c].batcher < |t.batchers|
    ensures c in t.open ==>
              (Possible(t, Return(c)) <==> t.tickets[c].waiter in t.batchers[t.tickets[c].batcher].settled)
  {
    assert SlotOk(t, k) && TicketOk(t, c);
  }

  /** An entry with open calls is never dropped, and one without is not kept. */
  lemma EntriesAreTheAwaitedKeys<K(!new), V(!new)>(moves: seq<Move<K, V>>, t: Table<K, V>, k: K)
    requires Trace(Empty(), moves, t)
    ensures k in t.entries <==> exists c <- t.open :: c < |t.tickets| && t.tickets[c].key == k
  {
    assert TableOk(Empty<K, V>());
    TraceKeeps(Empty(), moves, t);
    assert SlotOk(t, k);
    if k in t.entries {
      var c :| c in OpenOf(t, t.entries[k].batcher);
      assert TicketOk(t, c) && SlotOk(t, t.tickets[c].key);
    }
    if c :| c in t.open && c < |t.tickets| && t.tickets[c].key == k {
      assert TicketOk(t, c);
    }
  }

  /** A running load still has a caller, so its batcher is the key's entry. */
  lemma RunningIsEntry<K(!new), V(!new)>(t: Table<K, V>, b: nat)
    requires TableOk(t) && b < |t.batchers| && t.batchers[b].running
    ensures t.keys[b] in t.entries && t.entries[t.keys[b]].batcher == b
  {
    var s := t.batchers[b];
    assert BatcherOk(t, b);
    assert EntryOk(s, s.batch[0], s.loads - 1);
    var w := s.batch[0].waiters[0];
    assert w in s.batch[0].waiters;
    WaitersHas(s.batch, 0, w);
    NumbersHold(|s.calls|, w);
    assert (multiset(Waiters(s.pending)) + multiset(Waiters(s.batch)) + multiset(s.settled.Keys))[w] <= 1;
    assert WaiterOk(t, b, w);
    var c :| c in t.open && c < |t.tickets| && t.tickets[c] == Ticket(t.keys[b], b, w);
    assert TicketOk(t, c);
  }

  /** Even across entries that come and go, at most one load of a key runs at a time. */
  lemma OneLoadPerKey<K(!new), V(!new)>(moves: seq<Move<K, V>>, t: Table<K, V>, a: nat, b: nat)
    requires Trace(Empty(), moves, t) && a < |t.batchers| && b < |t.batchers|
    requires |t.keys| == |t.batchers| && t.keys[a] == t.keys[b] && t.batchers[a].running && t.batchers[b].running
    ensures a == b
  {
    assert TableOk(Empty<K, V>());
    TraceKeeps(Empty(), moves, t);
    RunningIsEntry(t, a);
    RunningIsEntry(t, b);
  }

  /** A call returns what a load of its own key returned, and that load started after the call. */
  lemma ReturnsFreshValue<K(!new), V(!new)>(moves: seq<Move<K, V>>, t: Table<K, V>, c: nat)
    requires Trace(Empty(), moves, t) && Possible(t, Return(c))
    ensures var b := t.batchers[t.tickets[c].batcher]; var w := t.tickets[c].waiter; var k := t.tickets[c].key;
      && w < |b.calls| && b.calls[w].key == k
      && b.calls[w].loadsBefore < b.settled[w].load <= |b.answers|
      && var r := b.answers[b.settled[w].load - 1];
      && (r.Loaded? ==> k in r.values && ReturnTo(t, c).returned[c] == Resolved(Some(r.values[k])))
      && (r.LoadFailed? ==> ReturnTo(t, c).returned[c] == Rejected(r.error))
  {
    assert TableOk(Empty<K, V>());
    TraceKeeps(Empty(), moves, t);
    var ticket := t.tickets[c];
    assert TicketOk(t, c) && SlotOk(t, ticket.key) && BatcherOk(t, ticket.batcher);
    assert SettledFresh(t.batchers[ticket.batcher], ticket.waiter);
  }

  // ----- every call returns -----

  lemma ReadIsSomewhere<K(!new), V(!new)>(s: State<K, V>, w: nat)
    requires Inv(s) && w < |s.calls| && w !in s.settled
    ensures w in Waiters(s.pending) || w in Waiters(s.batch)
  {
    NumbersHold(|s.calls|, w);
    assert (multiset(Waiters(s.pending)) + multiset(Waiters(s.batch)) + multiset(s.settled.Keys))[w] == 1;
  }

  lemma OneKeyPending<K(!new), V(!new)>(s: State<K, V>, k: K)
    requires Inv(s) && Serves(s, k)
    ensures |s.pending| <= 1
  {
    forall i | 0 <= i < |s.pending| ensures s.pending[i].key == k {
      assert EntryOk(s, s.pending[i], s.loads);
      assert s.pending[i].waiters[0] in s.pending[i].waiters;
    }
    SameKeyOnce(s.pending, k);
  }

  lemma SameKeyOnce<K>(entries: seq<Entry<K>>, k: K)
    requires DistinctKeys(entries)
    requires forall i | 0 <= i < |entries| :: entries[i].key == k
    ensures |entries| <= 1
  {
    if |entries| > 1 { FirstTwoDiffer(entries); }
  }

  lemma FirstTwoDiffer<K>(entries: seq<Entry<K>>)
    requires DistinctKeys(entries) && |entries| > 1
    ensures entries[0].key != entries[1].key
  {
  }

  lemma FlushTakesIt<K(!new), V(!new)>(s: State<K, V>, k: K, w: nat)
    requires Inv(s) && Serves(s, k) && s.scheduled && w in Waiters(s.pending)
    ensures w in Waiters(BeginFlush(s).batch)
  {
    OneKeyPending(s, k);
    assert s.pending[..|s.pending|] == s.pending;
  }

  lemma LoadSettlesIt<K(!new), V(!new)>(s: State<K, V>, r: LoadResult<K, V>, w: nat)
    requires Inv(s) && s.running
    ensures w in Waiters(s.batch) ==> w in EndFlush(s, r).settled
    ensures w in Waiters(s.pending) ==> w in Waiters(EndFlush(s, r).pending) && EndFlush(s, r).scheduled
  {
    SettleAllSpec(s, s.settled, s.batch, s.loads, r, s.loads - 1);
  }

  /** How many moves of its batcher a read is from being settled. */
  function Ahead<K, V>(s: State<K, V>, w: nat): nat {
    if w in s.settled then 0
    else if w in Waiters(s.batch) then 1
    else if s.scheduled then 2 else 3
  }

  /** The move of the batcher that brings the read nearer. */
  lemma ComesNearer<K(!new), V(!new)>(s: State<K, V>, k: K, r: LoadResult<K, V>, w: nat)
    requires Inv(s) && Serves(s, k) && w < |s.calls| && w !in s.settled
    ensures s.running ==> Ahead(EndFlush(s, r), w) < Ahead(s, w)
    ensures !s.running ==> s.scheduled && Ahead(BeginFlush(s), w) < Ahead(s, w)
  {
    ReadIsSomewhere(s, w);
    if s.running { LoadSettlesIt(s, r, w); } else { FlushTakesIt(s, k, w); }
  }

  lemma TraceCons<K(!new), V(!new)>(t: Table<K, V>, move: Move<K, V>, moves: seq<Move<K, V>>, u: Table<K, V>)
    requires Possible(t, move) && Trace(Advance(t, move), moves, u)
    ensures Trace(t, [move] + moves, u)
  {
    assert ([move] + moves)[1..] == moves;
  }

  /** From every reachable table an open call can return, after at most three moves of its batcher, whatever its loads answer. */
  lemma {:induction false} EveryCallReturns<K(!new), V(!new)>(t: Table<K, V>, c: nat, r: LoadResult<K, V>)
    returns (moves: seq<Move<K, V>>, u: Table<K, V>)
    requires TableOk(t) && c in t.open && c < |t.tickets| && SingleResult(r, t.tickets[c].key)
    requires t.tickets[c].batcher < |t.batchers|
    ensures Trace(t, moves, u) && c !in u.open && c in u.returned
    ensures |moves| <= Ahead(t.batchers[t.tickets[c].batcher], t.tickets[c].waiter) + 1
    decreases Ahead(t.batchers[t.tickets[c].batcher], t.tickets[c].waiter)
  {
    var k, b, w := t.tickets[c].key, t.tickets[c].batcher, t.tickets[c].waiter;
    var s := t.batchers[b];
    assert TicketOk(t, c) && SlotOk(t, k) && BatcherOk(t, b) && t.keys[b] == k && Serves(s, k);
    var move: Move<K, V> := if w in s.settled then Return(c) else if s.running then LoadEndsAt(b, r) else FireAt(b);
    if w in s.settled {
      moves, u := [], Advance(t, move);
      assert Trace(u, [], u);
    } else {
      ComesNearer(s, k, r, w);
      if s.running { LoadEndsKeeps(t, b, r); } else { FireKeeps(t, b); }
      moves, u := EveryCallReturns(Advance(t, move), c, r);
    }
    TraceCons(t, move, moves, u);
    moves := [move] + moves;
  }

  /** A call that is made is open, for its key, and not settled yet. */
  lemma CallIsMade<K(!new), V(!new)>(t: Table<K, V>, k: K)
    requires TableOk(t)
    ensures Possible(t, Ask(k))
    ensures var u := Advance(t, Ask(k)); var c := |t.tickets|;
      && u.open == t.open + {c} && u.tickets == t.tickets + [u.tickets[c]] && u.tickets[c].key == k
      && u.tickets[c].batcher < |u.batchers|
      && u.tickets[c].waiter !in u.batchers[u.tickets[c].batcher].settled
  {
    assert SlotOk(t, k);
    AskKeeps(t, k);
    BatcherForKey(t, k);
    var s := BatcherFor(t, k);
    assert SettledFresh(s, |s.calls|);
  }
}
