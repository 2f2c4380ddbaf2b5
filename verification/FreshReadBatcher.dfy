/**
 The batching reader: reads of the same turn join one load, a read that arrives
 while a load runs joins a later one, and one load runs at a time.
 */
module FreshReads {

  datatype Option<+T> = None | Some(value: T)

  /** Waiters are numbered in the order their reads were called. */
  datatype Entry<K> = Entry(key: K, waiters: seq<nat>)

  datatype LoadResult<K, V> = Loaded(values: map<K, V>) | LoadFailed(error: string)

  /** What a read's promise is settled with; a key the load did not return gives no value. */
  datatype Outcome<V> = Resolved(value: Option<V>) | Rejected(error: string)

  datatype Settlement<V> = Settlement(load: nat, outcome: Outcome<V>)

  /** A call of read, and how many loads had been started when it was made. */
  datatype Call<K> = Call(key: K, loadsBefore: nat)

  /**
   pending: the insertion-ordered map of waiting reads. batch: the reads the
   running load answers. calls, loads, answers and settled record the history:
   every read, the number of loads started, the results of finished loads, and
   how each read was settled.
   */
  datatype State<K, V> = State(
    maxBatchSize: nat,
    pending: seq<Entry<K>>,
    scheduled: bool,
    running: bool,
    batch: seq<Entry<K>>,
    calls: seq<Call<K>>,
    loads: nat,
    answers: seq<LoadResult<K, V>>,
    settled: map<nat, Settlement<V>>)

  function Initial<K, V>(maxBatchSize: nat): State<K, V> {
    State(maxBatchSize, [], false, false, [], [], 0, [], map[])
  }

  // ----- the insertion-ordered map -----

  predicate HasKey<K(==)>(entries: seq<Entry<K>>, k: K) {
    exists i | 0 <= i < |entries| :: entries[i].key == k
  }

  /** Appends the waiter to its key's entry, or a new entry at the end. */
  function AddWaiter<K(==)>(entries: seq<Entry<K>>, k: K, w: nat): seq<Entry<K>> {
    if entries == [] then [Entry(k, [w])]
    else if entries[0].key == k then [Entry(k, entries[0].waiters + [w])] + entries[1..]
    else [entries[0]] + AddWaiter(entries[1..], k, w)
  }

  function Waiters<K>(entries: seq<Entry<K>>): seq<nat> {
    if entries == [] then [] else entries[0].waiters + Waiters(entries[1..])
  }

  predicate DistinctKeys<K(==)>(entries: seq<Entry<K>>) {
    forall i, j | 0 <= i < j < |entries| :: entries[i].key != entries[j].key
  }

  // ----- the stretches of the batcher -----

  function Schedule<K, V>(s: State<K, V>): State<K, V> {
    if s.scheduled || s.running || s.pending == [] then s else s.(scheduled := true)
  }

  function Read<K(==), V>(s: State<K, V>, k: K): State<K, V> {
    Schedule(s.(pending := AddWaiter(s.pending, k, |s.calls|), calls := s.calls + [Call(k, s.loads)]))
  }

  /** How many of the pending keys the next load takes. */
  function BatchSize<K, V>(s: State<K, V>): nat {
    if s.maxBatchSize < |s.pending| then s.maxBatchSize else |s.pending|
  }

  /** The scheduled callback: the oldest keys leave the pending map, then their load starts. */
  function BeginFlush<K, V>(s: State<K, V>): State<K, V> {
    var n := BatchSize(s);
    s.(scheduled := false, running := true, batch := s.pending[..n], pending := s.pending[n..], loads := s.loads + 1)
  }

  function Lookup<K, V>(r: LoadResult<K, V>, k: K): Outcome<V> {
    match r
    case Loaded(values) => Resolved(if k in values then Some(values[k]) else None)
    case LoadFailed(error) => Rejected(error)
  }

  /** Settles every waiter of these entries with the result of one load. */
  function SettleAll<K, V>(settled: map<nat, Settlement<V>>, entries: seq<Entry<K>>, load: nat, r: LoadResult<K, V>):
    map<nat, Settlement<V>>
    decreases |entries|
  {
    if entries == [] then settled
    else
      SettleAll(settled + (map w <- entries[0].waiters :: Settlement(load, Lookup(r, entries[0].key))), entries[1..], load, r)
  }

  function EndFlush<K, V>(s: State<K, V>, r: LoadResult<K, V>): State<K, V> {
    Schedule(s.(settled := SettleAll(s.settled, s.batch, s.loads, r), answers := s.answers + [r],
                batch := [], running := false))
  }

  // ----- runs -----

  datatype Step<K, V> = CallRead(key: K) | Fire | LoadEnds(result: LoadResult<K, V>)

  predicate Enabled<K, V>(s: State<K, V>, step: Step<K, V>) {
    match step
    case CallRead(_) => true
    case Fire => s.scheduled
    case LoadEnds(_) => s.running
  }

  function Next<K(==), V>(s: State<K, V>, step: Step<K, V>): State<K, V> {
    match step
    case CallRead(k) => Read(s, k)
    case Fire => BeginFlush(s)
    case LoadEnds(r) => EndFlush(s, r)
  }

  predicate Run<K(==), V(==)>(s: State<K, V>, steps: seq<Step<K, V>>, t: State<K, V>)
    decreases |steps|
  {
    if steps == [] then s == t else Enabled(s, steps[0]) && Run(Next(s, steps[0]), steps[1..], t)
  }

  // ----- the invariant -----

  /** All waiters handed out so far. */
  function Numbers(n: nat): multiset<nat> {
    if n == 0 then multiset{} else Numbers(n - 1) + multiset{n - 1}
  }

  ghost predicate EntriesOk<K(!new), V>(s: State<K, V>, entries: seq<Entry<K>>, loads: int) {
    forall i | 0 <= i < |entries| :: EntryOk(s, entries[i], loads)
  }

  /** An entry's waiters called its key, before load number `loads` + 1 started. */
  ghost predicate EntryOk<K(!new), V>(s: State<K, V>, e: Entry<K>, loads: int) {
    && e.waiters != []
    && forall w <- e.waiters :: w < |s.calls| && s.calls[w].key == e.key && s.calls[w].loadsBefore <= loads
  }

  /** The read was settled by a load that started after the call, with what that load returned for its key. */
  ghost predicate SettledFresh<K(!new), V(!new)>(s: State<K, V>, w: nat) {
    w in s.settled ==>
      && w < |s.calls|
      && s.calls[w].loadsBefore < s.settled[w].load <= |s.answers|
      && s.settled[w].outcome == Lookup(s.answers[s.settled[w].load - 1], s.calls[w].key)
  }

  /** No wakeup is lost: waiting reads are behind a scheduled flush or a running load, never both. */
  ghost predicate Flags<K(!new), V(!new)>(s: State<K, V>) {
    && s.maxBatchSize >= 1
    && |s.batch| <= s.maxBatchSize
    && !(s.scheduled && s.running)
    && (s.scheduled ==> s.pending != [])
    && (s.pending != [] ==> s.scheduled || s.running)
    && (s.running <==> s.batch != [])
    && s.loads == |s.answers| + (if s.running then 1 else 0)
  }

  ghost predicate Keyed<K(!new), V(!new)>(s: State<K, V>) {
    DistinctKeys(s.pending) && DistinctKeys(s.batch)
  }

  /** Every read is waiting, being loaded, or settled: exactly one of them, once. */
  ghost predicate Partition<K(!new), V(!new)>(s: State<K, V>) {
    multiset(Waiters(s.pending)) + multiset(Waiters(s.batch)) + multiset(s.settled.Keys) == Numbers(|s.calls|)
  }

  ghost predicate Fresh<K(!new), V(!new)>(s: State<K, V>) {
    && EntriesOk(s, s.pending, s.loads)
    && (s.running ==> EntriesOk(s, s.batch, s.loads - 1))
    && forall w :: SettledFresh(s, w)
  }

  ghost predicate Inv<K(!new), V(!new)>(s: State<K, V>) {
    Flags(s) && Keyed(s) && Partition(s) && Fresh(s)
  }

  // ----- lemmas about the ordered map -----

  lemma {:induction false} AddWaiterCounts<K>(entries: seq<Entry<K>>, k: K, w: nat)
    ensures multiset(Waiters(AddWaiter(entries, k, w))) == multiset(Waiters(entries)) + multiset{w}
  {
    var r := AddWaiter(entries, k, w);
    if entries == [] {
      assert Waiters(r) == [w];
    } else if entries[0].key == k {
      assert r[1..] == entries[1..];
    } else {
      AddWaiterCounts(entries[1..], k, w);
      assert r[1..] == AddWaiter(entries[1..], k, w);
    }
  }

  /** What becomes of the entry at place i. */
  predicate IsPlaced<K(==)>(entries: seq<Entry<K>>, r: seq<Entry<K>>, k: K, w: nat, i: nat)
    requires i < |r|
  {
    || (i < |entries| && r[i] == entries[i])
    || (i < |entries| && r[i].key == k == entries[i].key && r[i].waiters == entries[i].waiters + [w])
    || (i == |entries| && r[i] == Entry(k, [w]))
  }

  /** Every entry keeps its place and its earlier waiters; a new key goes last. */
  lemma {:induction false} AddWaiterPlaces<K>(entries: seq<Entry<K>>, k: K, w: nat)
    ensures var r := AddWaiter(entries, k, w);
      && |entries| <= |r|
      && (forall i | 0 <= i < |r| :: IsPlaced(entries, r, k, w, i))
      && (forall i | 0 <= i < |entries| :: r[i].key == entries[i].key && entries[i].waiters <= r[i].waiters)
      && (|r| > |entries| ==> !HasKey(entries, k))
  {
    var r := AddWaiter(entries, k, w);
    if entries != [] && entries[0].key != k {
      AddWaiterPlaces(entries[1..], k, w);
      var q := AddWaiter(entries[1..], k, w);
      assert r == [entries[0]] + q;
      forall i | 0 <= i < |r| ensures IsPlaced(entries, r, k, w, i) {
        if i > 0 { assert IsPlaced(entries[1..], q, k, w, i - 1) && r[i] == q[i - 1]; }
      }
      if HasKey(entries, k) {
        var i :| 0 <= i < |entries| && entries[i].key == k;
        assert entries[1..][i - 1].key == k;
      }
    }
  }

  lemma {:induction false} WaitersConcat<K>(a: seq<Entry<K>>, b: seq<Entry<K>>)
    ensures Waiters(a + b) == Waiters(a) + Waiters(b)
  {
    if a == [] {
      assert a + b == b;
    } else {
      WaitersConcat(a[1..], b);
      assert (a + b)[1..] == a[1..] + b && (a + b)[0] == a[0];
      calc {
        Waiters(a + b);
        a[0].waiters + Waiters(a[1..] + b);
        a[0].waiters + (Waiters(a[1..]) + Waiters(b));
        Waiters(a) + Waiters(b);
      }
    }
  }

  lemma {:induction false} NumbersHold(n: nat, w: nat)
    ensures Numbers(n)[w] == if w < n then 1 else 0
  {
    if n > 0 { NumbersHold(n - 1, w); }
  }

  lemma {:induction false} SettleAllSpec<K(!new), V(!new)>(s: State<K, V>, settled: map<nat, Settlement<V>>,
    entries: seq<Entry<K>>, load: nat, r: LoadResult<K, V>, loads: int)
    requires EntriesOk(s, entries, loads)
    ensures var t := SettleAll(settled, entries, load, r);
      && (forall w :: w in t <==> w in settled || w in Waiters(entries))
      && (forall w <- Waiters(entries) ::
            w < |s.calls| && s.calls[w].loadsBefore <= loads && t[w] == Settlement(load, Lookup(r, s.calls[w].key)))
      && (forall w :: w in settled && w !in Waiters(entries) ==> t[w] == settled[w])
    decreases |entries|
  {
    if entries != [] {
      var first := settled + (map w <- entries[0].waiters :: Settlement(load, Lookup(r, entries[0].key)));
      assert EntryOk(s, entries[0], loads);
      forall i | 0 <= i < |entries[1..]| ensures EntryOk(s, entries[1..][i], loads) { assert EntryOk(s, entries[i + 1], loads); }
      SettleAllSpec(s, first, entries[1..], load, r, loads);
    }
  }

  // ----- every step keeps the invariant -----

  lemma AddWaiterDistinct<K>(entries: seq<Entry<K>>, k: K, w: nat)
    requires DistinctKeys(entries)
    ensures DistinctKeys(AddWaiter(entries, k, w))
  {
    var r := AddWaiter(entries, k, w);
    AddWaiterPlaces(entries, k, w);
    forall i, j | 0 <= i < j < |r| ensures r[i].key != r[j].key {
      assert IsPlaced(entries, r, k, w, i) && IsPlaced(entries, r, k, w, j);
    }
  }

  lemma ReadKeepsFresh<K(!new), V(!new)>(s: State<K, V>, k: K)
    requires Fresh(s)
    ensures Fresh(Read(s, k))
  {
    var t := Read(s, k);
    AddWaiterPlaces(s.pending, k, |s.calls|);
    forall i | 0 <= i < |t.pending| ensures EntryOk(t, t.pending[i], t.loads) {
      assert IsPlaced(s.pending, t.pending, k, |s.calls|, i);
      if i < |s.pending| { assert EntryOk(s, s.pending[i], s.loads); }
    }
    forall i | s.running && 0 <= i < |t.batch| ensures EntryOk(t, t.batch[i], t.loads - 1) {
      assert EntryOk(s, s.batch[i], s.loads - 1);
    }
    forall v ensures SettledFresh(t, v) { assert SettledFresh(s, v); }
  }

  lemma ReadKeepsPartition<K(!new), V(!new)>(s: State<K, V>, k: K)
    requires Partition(s)
    ensures Partition(Read(s, k))
  {
    AddWaiterCounts(s.pending, k, |s.calls|);
  }

  lemma ReadKeepsInv<K(!new), V(!new)>(s: State<K, V>, k: K)
    requires Inv(s)
    ensures Inv(Read(s, k))
  {
    ReadKeepsPartition(s, k);
    AddWaiterDistinct(s.pending, k, |s.calls|);
    ReadKeepsFresh(s, k);
  }

  lemma BeginFlushKeepsFresh<K(!new), V(!new)>(s: State<K, V>)
    requires Fresh(s) && !s.running
    ensures Fresh(BeginFlush(s))
  {
    var t := BeginFlush(s);
    forall i | 0 <= i < |t.pending| ensures EntryOk(t, t.pending[i], t.loads) {
      assert EntryOk(s, s.pending[|t.batch| + i], s.loads);
    }
    forall i | 0 <= i < |t.batch| ensures EntryOk(t, t.batch[i], t.loads - 1) { assert EntryOk(s, s.pending[i], s.loads); }
    forall v ensures SettledFresh(t, v) { assert SettledFresh(s, v); }
  }

  lemma BeginFlushKeepsPartition<K(!new), V(!new)>(s: State<K, V>)
    requires Partition(s) && s.batch == []
    ensures Partition(BeginFlush(s))
  {
    WaitersSplit(s.pending, BatchSize(s));
  }

  lemma {:induction false} WaitersSplit<K>(entries: seq<Entry<K>>, n: nat)
    requires n <= |entries|
    ensures multiset(Waiters(entries)) == multiset(Waiters(entries[..n])) + multiset(Waiters(entries[n..]))
  {
    WaitersConcat(entries[..n], entries[n..]);
    assert entries[..n] + entries[n..] == entries;
  }

  lemma SliceDistinct<K>(entries: seq<Entry<K>>, n: nat)
    requires DistinctKeys(entries) && n <= |entries|
    ensures DistinctKeys(entries[..n]) && DistinctKeys(entries[n..])
  {
  }

  lemma BeginFlushKeepsInv<K(!new), V(!new)>(s: State<K, V>)
    requires Inv(s) && s.scheduled
    ensures Inv(BeginFlush(s))
  {
    BeginFlushKeepsPartition(s);
    BeginFlushKeepsFresh(s);
    SliceDistinct(s.pending, BatchSize(s));
  }

  lemma EndFlushKeepsFresh<K(!new), V(!new)>(s: State<K, V>, r: LoadResult<K, V>)
    requires Fresh(s) && s.running && s.loads == |s.answers| + 1
    ensures Fresh(EndFlush(s, r))
  {
    var t := EndFlush(s, r);
    SettleAllSpec(s, s.settled, s.batch, s.loads, r, s.loads - 1);
    forall i | 0 <= i < |t.pending| ensures EntryOk(t, t.pending[i], t.loads) { assert EntryOk(s, s.pending[i], s.loads); }
    forall v ensures SettledFresh(t, v) {
      assert SettledFresh(s, v);
    }
  }

  /** Disjoint waiters add up when they are settled. */
  lemma SettledCounts(ws: seq<nat>, rest: multiset<nat>, before: set<nat>, after: set<nat>, n: nat)
    requires rest + multiset(ws) + multiset(before) == Numbers(n)
    requires forall w :: w in after <==> w in before || w in ws
    ensures rest + multiset(after) == Numbers(n)
  {
    forall v: nat ensures multiset(ws)[v] + multiset(before)[v] == multiset(after)[v] {
      NumbersHold(n, v);
      assert (rest + multiset(ws) + multiset(before))[v] <= 1;
      assert v in multiset(ws) <==> v in ws;
    }
    assert multiset(ws) + multiset(before) == multiset(after);
  }

  lemma EndFlushKeepsPartition<K(!new), V(!new)>(s: State<K, V>, r: LoadResult<K, V>)
    requires Partition(s) && Fresh(s) && s.running
    ensures Partition(EndFlush(s, r))
  {
    SettleAllSpec(s, s.settled, s.batch, s.loads, r, s.loads - 1);
    SettledCounts(Waiters(s.batch), multiset(Waiters(s.pending)), s.settled.Keys, EndFlush(s, r).settled.Keys, |s.calls|);
  }

  lemma EndFlushKeepsInv<K(!new), V(!new)>(s: State<K, V>, r: LoadResult<K, V>)
    requires Inv(s) && s.running
    ensures Inv(EndFlush(s, r))
  {
    EndFlushKeepsFresh(s, r);
    EndFlushKeepsPartition(s, r);
  }

  lemma StepKeepsInv<K(!new), V(!new)>(s: State<K, V>, step: Step<K, V>)
    requires Inv(s) && Enabled(s, step)
    ensures Inv(Next(s, step))
  {
    match step
    case CallRead(k) => ReadKeepsInv(s, k);
    case Fire => BeginFlushKeepsInv(s);
    case LoadEnds(r) => EndFlushKeepsInv(s, r);
  }

  lemma {:induction false} RunKeepsInv<K(!new), V(!new)>(s: State<K, V>, steps: seq<Step<K, V>>, t: State<K, V>)
    requires Inv(s) && Run(s, steps, t)
    ensures Inv(t)
    decreases |steps|
  {
    if steps != [] {
      StepKeepsInv(s, steps[0]);
      RunKeepsInv(Next(s, steps[0]), steps[1..], t);
    }
  }

  // ----- what the batcher promises -----

  /** A read resolves with the value loaded for its key, or with none if the load had none, and fails if the load failed. */
  predicate IsAnswer<K(==), V(==)>(r: LoadResult<K, V>, k: K, outcome: Outcome<V>) {
    && (r.Loaded? && k in r.values ==> outcome == Resolved(Some(r.values[k])))
    && (r.Loaded? && k !in r.values ==> outcome == Resolved(None))
    && (r.LoadFailed? ==> outcome == Rejected(r.error))
  }

  /** In every reachable state a read is in exactly one place, and a settled one got a fresh answer. */
  lemma EveryReadOnce<K(!new), V(!new)>(max: nat, steps: seq<Step<K, V>>, s: State<K, V>, w: nat)
    requires max >= 1 && Run(Initial(max), steps, s) && w < |s.calls|
    ensures multiset(Waiters(s.pending))[w] + multiset(Waiters(s.batch))[w] + (if w in s.settled then 1 else 0) == 1
    ensures w in s.settled ==>
      && s.calls[w].loadsBefore < s.settled[w].load <= |s.answers|
      && IsAnswer(s.answers[s.settled[w].load - 1], s.calls[w].key, s.settled[w].outcome)
    ensures w !in s.settled ==> s.scheduled || s.running
  {
    assert Inv(Initial<K, V>(max));
    RunKeepsInv(Initial(max), steps, s);
    assert SettledFresh(s, w);
    NumbersHold(|s.calls|, w);
    assert (multiset(Waiters(s.pending)) + multiset(Waiters(s.batch)) + multiset(s.settled.Keys))[w] == 1;
  }

  function Fires<K, V>(steps: seq<Step<K, V>>): nat {
    if steps == [] then 0 else (if steps[0].Fire? then 1 else 0) + Fires(steps[1..])
  }

  /** One step leaves a waiting key in place, except that a flush moves it forward by a full batch. */
  lemma StepMoves<K(!new), V(!new)>(s: State<K, V>, step: Step<K, V>, p: nat)
    requires s.maxBatchSize >= 1 && p < |s.pending|
    requires step.Fire? ==> s.maxBatchSize <= p
    ensures var t := Next(s, step); var q := p - (if step.Fire? then s.maxBatchSize else 0);
      && t.maxBatchSize == s.maxBatchSize && q < |t.pending|
      && t.pending[q].key == s.pending[p].key && s.pending[p].waiters <= t.pending[q].waiters
  {
    if step.CallRead? { AddWaiterPlaces(s.pending, step.key, |s.calls|); }
  }

  /** How far these steps move a waiting key forward. */
  function Moves<K, V>(steps: seq<Step<K, V>>, batchSize: nat): nat {
    if steps == [] then 0 else (if steps[0].Fire? then batchSize else 0) + Moves(steps[1..], batchSize)
  }

  lemma {:induction false} MovesInBatches<K, V>(steps: seq<Step<K, V>>, batchSize: nat)
    ensures Moves(steps, batchSize) == Fires(steps) * batchSize
  {
    if steps != [] {
      MovesInBatches(steps[1..], batchSize);
      OneMore(Fires(steps[1..]), batchSize);
    }
  }

  lemma OneMore(n: nat, m: nat)
    ensures (1 + n) * m == m + n * m
  {
  }

  lemma Split(p: nat, m: nat)
    requires m >= 1
    ensures 0 <= (p / m) * m && p - (p / m) * m == p % m < m
  {
  }

  /** Whatever is read meanwhile, each flush moves a waiting key forward by a full batch. */
  lemma {:induction false} QueueAdvances<K(!new), V(!new)>(s: State<K, V>, steps: seq<Step<K, V>>, t: State<K, V>, p: nat)
    requires s.maxBatchSize >= 1 && Run(s, steps, t)
    requires Moves(steps, s.maxBatchSize) <= p < |s.pending|
    ensures t.maxBatchSize == s.maxBatchSize
    ensures var q := p - Moves(steps, s.maxBatchSize);
      q < |t.pending| && t.pending[q].key == s.pending[p].key && s.pending[p].waiters <= t.pending[q].waiters
    decreases |steps|
  {
    if steps != [] {
      StepMoves(s, steps[0], p);
      QueueAdvances(Next(s, steps[0]), steps[1..], t, p - if steps[0].Fire? then s.maxBatchSize else 0);
    }
  }

  /** A key at position p is taken by flush number p / maxBatchSize + 1 from now. */
  lemma LoadedInTurn<K(!new), V(!new)>(s: State<K, V>, steps: seq<Step<K, V>>, t: State<K, V>, p: nat)
    requires s.maxBatchSize >= 1 && Run(s, steps, t)
    requires p < |s.pending| && Fires(steps) == p / s.maxBatchSize
    ensures var b := BeginFlush(t).batch; var q := p % s.maxBatchSize;
      q < |b| && b[q].key == s.pending[p].key && s.pending[p].waiters <= b[q].waiters
  {
    Split(p, s.maxBatchSize);
    MovesInBatches(steps, s.maxBatchSize);
    QueueAdvances(s, steps, t, p);
    assert BeginFlush(t).batch == t.pending[..BatchSize(t)];
  }

  /** While a load runs, reads only wait. */
  lemma {:induction false} ReadsKeepBatch<K(!new), V(!new)>(s: State<K, V>, steps: seq<Step<K, V>>, t: State<K, V>)
    requires s.running && Run(s, steps, t) && forall step <- steps :: step.CallRead?
    ensures t.running && t.batch == s.batch && t.loads == s.loads && t.settled == s.settled
    ensures |s.calls| <= |t.calls| && t.calls[..|s.calls|] == s.calls
    decreases |steps|
  {
    if steps != [] {
      ReadsKeepBatch(Next(s, steps[0]), steps[1..], t);
    }
  }

  /** A waiting read is settled when that flush's load ends, with the answer of that very load. */
  lemma SettledInTurn<K(!new), V(!new)>(s: State<K, V>, before: seq<Step<K, V>>, t: State<K, V>, p: nat, w: nat,
    during: seq<Step<K, V>>, u: State<K, V>, r: LoadResult<K, V>)
    requires Inv(s) && Run(s, before, t) && t.scheduled
    requires p < |s.pending| && w in s.pending[p].waiters && Fires(before) == p / s.maxBatchSize
    requires Run(BeginFlush(t), during, u) && forall step <- during :: step.CallRead?
    ensures w in EndFlush(u, r).settled
    ensures EndFlush(u, r).settled[w].load == t.loads + 1
    ensures IsAnswer(r, s.pending[p].key, EndFlush(u, r).settled[w].outcome)
  {
    LoadedInTurn(s, before, t, p);
    RunKeepsInv(s, before, t);
    var b := BeginFlush(t);
    BeginFlushKeepsInv(t);
    ReadsKeepBatch(b, during, u);
    RunKeepsInv(b, during, u);
    SettleAllSpec(u, u.settled, u.batch, u.loads, r, u.loads - 1);
    var q := p % s.maxBatchSize;
    WaitersHas(u.batch, q, w);
    assert EntryOk(u, u.batch[q], u.loads - 1);
  }

  lemma {:induction false} WaitersHas<K>(entries: seq<Entry<K>>, i: nat, w: nat)
    requires i < |entries| && w in entries[i].waiters
    ensures w in Waiters(entries)
    decreases i
  {
    if i > 0 {
      assert entries[i] == entries[1..][i - 1];
      WaitersHas(entries[1..], i - 1, w);
    }
  }
}

/** The batcher as it runs: its fields, updated in place. */
module FreshReadBatcher {
  import opened FreshReads

  lemma MoveFirst<T>(all: seq<T>, front: seq<T>, back: seq<T>)
    requires all == front + back && back != []
    ensures all == (front + [back[0]]) + back[1..]
  {
  }

  lemma SplitAgain<T>(all: seq<T>, front: seq<T>, back: seq<T>)
    requires all == front + back
    ensures all[..|front|] == front && all[|front|..] == back
  {
  }

  class FreshReadBatcher<K(==, !new), V(!new)> {
    const maxBatchSize: nat
    var pending: seq<Entry<K>>
    var scheduled: bool
    var running: bool
    var batch: seq<Entry<K>>
    var settled: map<nat, Settlement<V>>
    var readCount: nat
    ghost var calls: seq<Call<K>>
    var loads: nat
    ghost var answers: seq<LoadResult<K, V>>

    ghost function View(): State<K, V>
      reads this
    {
      State(maxBatchSize, pending, scheduled, running, batch, calls, loads, answers, settled)
    }

    constructor (maxBatchSize: nat)
      requires maxBatchSize >= 1
      ensures View() == Initial(maxBatchSize) && readCount == |calls|
    {
      this.maxBatchSize := maxBatchSize;
      pending, batch, settled, calls, answers := [], [], map[], [], [];
      scheduled, running, loads, readCount := false, false, 0, 0;
    }

    /** Rejects a batch size that is not positive. */
    static method Create(maxBatchSize: int) returns (b: FreshReadBatcher?<K, V>)
      ensures b == null <==> maxBatchSize < 1
      ensures b != null ==> fresh(b) && b.View() == Initial(maxBatchSize) && b.readCount == |b.calls|
    {
      if maxBatchSize < 1 { return null; }
      b := new FreshReadBatcher<K, V>(maxBatchSize);
    }

    method Schedule()
      modifies this`scheduled
      ensures View() == FreshReads.Schedule(old(View()))
    {
      if scheduled || running || pending == [] { return; }
      scheduled := true;
    }

    method Read(k: K) returns (promise: nat)
      requires readCount == |calls|
      modifies this
      ensures View() == FreshReads.Read(old(View()), k) && promise == old(readCount) && readCount == |calls|
    {
      promise := readCount;
      pending := AddWaiter(pending, k, promise);
      readCount := readCount + 1;
      calls := calls + [Call(k, loads)];
      Schedule();
    }

    /** The scheduled callback up to the start of the load; the keys are what is loaded. */
    method FlushStart() returns (keys: seq<K>)
      requires maxBatchSize >= 1
      modifies this
      ensures View() == BeginFlush(old(View())) && readCount == old(readCount)
      ensures |keys| == |batch| && forall i | 0 <= i < |keys| :: keys[i] == batch[i].key
    {
      ghost var all := pending;
      scheduled, running, batch, keys := false, true, [], [];
      while pending != []
        invariant all == batch + pending && |batch| < maxBatchSize
        invariant |keys| == |batch| && forall i | 0 <= i < |keys| :: keys[i] == batch[i].key
        modifies this`pending, this`batch
        decreases |pending|
      {
        MoveFirst(all, batch, pending);
        batch, keys, pending := batch + [pending[0]], keys + [pending[0].key], pending[1..];
        if |batch| >= maxBatchSize { break; }
      }
      SplitAgain(all, batch, pending);
      loads := loads + 1;
    }

    method SettleWaiters(ws: seq<nat>, outcome: Outcome<V>)
      modifies this`settled
      ensures settled == old(settled) + map w <- ws :: Settlement(loads, outcome)
    {
      for j := 0 to |ws|
        invariant settled == old(settled) + map w <- ws[..j] :: Settlement(loads, outcome)
      {
        settled := settled[ws[j] := Settlement(loads, outcome)];
      }
      assert ws[..|ws|] == ws;
    }

    /** The rest of the flush: the load's result, or its error, reaches every waiter of the batch. */
    method FlushEnd(r: LoadResult<K, V>)
      modifies this
      ensures View() == EndFlush(old(View()), r) && readCount == old(readCount)
    {
      for i := 0 to |batch|
        invariant unchanged(`pending) && unchanged(`scheduled) && unchanged(`running) && unchanged(`batch)
        invariant unchanged(`calls) && unchanged(`loads) && unchanged(`answers) && unchanged(`readCount)
        invariant SettleAll(settled, batch[i..], loads, r) == SettleAll(old(settled), batch, loads, r)
      {
        SettleWaiters(batch[i].waiters, Lookup(r, batch[i].key));
        assert batch[i..][1..] == batch[i + 1..];
      }
      answers := answers + [r];
      batch := [];
      running := false;
      Schedule();
    }
  }
}
