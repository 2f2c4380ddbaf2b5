/**
 The seat map's event handlers: every seat change arrives as a v2 event, and all
 but `locked` also as a legacy copy, which must not be applied a second time.
 Times are the device clock in milliseconds at receipt.
 */
module SeatUpdates {

  datatype Option<+T> = None | Some(value: T)

  datatype SeatState = Available | Locked | Sold | Held | Disabled

  datatype SeatEvent = SeatEvent(seatId: string, status: SeatState)

  /** A v2 event whose legacy copy is still expected. */
  datatype Echo = Echo(status: SeatState, receivedAt: int)

  datatype Recorded = Recorded(seatId: string, status: SeatState, receivedAt: int)

  type Seats = map<string, SeatState>

  const ECHO_WINDOW_MS := 10_000
  const SNAPSHOT_MAX_AGE_MS := 1_000
  const OVERLAY_MARGIN_MS := 500
  const OVERLAY_RETENTION_MS := 10_000

  /**
   pending: updates waiting for the next flush. echoes: expected legacy copies,
   oldest first. recent: the latest event of each seat, for merging snapshots.
   frame, timer: a flush is scheduled. cache: the seat map shown, once loaded.
   */
  datatype State = State(
    pending: map<string, SeatEvent>,
    echoes: map<string, seq<Echo>>,
    recent: map<string, Recorded>,
    frame: bool,
    timer: bool,
    cache: Option<Seats>)

  /** How seat ids are normalized, and whether the browser has animation frames. */
  datatype Env = Env(key: string -> string, hasFrames: bool)

  // ----- the handlers -----

  function ScheduleFlush(e: Env, s: State): State {
    s.(frame := s.frame || e.hasFrames, timer := true)
  }

  /** Forgets recorded events that are older than any snapshot requested now. */
  function Prune(recent: map<string, Recorded>, now: int): map<string, Recorded> {
    map k | k in recent && now - recent[k].receivedAt <= OVERLAY_RETENTION_MS :: recent[k]
  }

  function ApplyUpdate(e: Env, s: State, data: SeatEvent, now: int): State {
    var k := e.key(data.seatId);
    ScheduleFlush(e, s.(
      recent := Prune(s.recent, now)[k := Recorded(data.seatId, data.status, now)],
      pending := s.pending[k := data]))
  }

  function EchoesOf(s: State, k: string): seq<Echo> {
    if k in s.echoes then s.echoes[k] else []
  }

  function HandleV2(e: Env, s: State, data: SeatEvent, now: int): State {
    var k := e.key(data.seatId);
    var s1 := if data.status.Locked? then s else s.(echoes := s.echoes[k := EchoesOf(s, k) + [Echo(data.status, now)]]);
    ApplyUpdate(e, s1, data, now)
  }

  function Live(echoes: seq<Echo>, now: int): seq<Echo> {
    if echoes == [] then []
    else if now - echoes[0].receivedAt <= ECHO_WINDOW_MS then [echoes[0]] + Live(echoes[1..], now)
    else Live(echoes[1..], now)
  }

  /** The position of the first echo with this status, or the length. */
  function FindStatus(echoes: seq<Echo>, status: SeatState): (i: nat)
    ensures i <= |echoes|
  {
    if echoes == [] || echoes[0].status == status then 0 else 1 + FindStatus(echoes[1..], status)
  }

  function SetEchoes(s: State, k: string, echoes: seq<Echo>): State {
    s.(echoes := if echoes == [] then s.echoes - {k} else s.echoes[k := echoes])
  }

  function HandleLegacy(e: Env, s: State, data: SeatEvent, now: int): State {
    var k := e.key(data.seatId);
    if k !in s.echoes then ApplyUpdate(e, s, data, now)
    else
      var live := Live(s.echoes[k], now);
      var i := FindStatus(live, data.status);
      if i < |live| then SetEchoes(s, k, live[..i] + live[i + 1..])
      else ApplyUpdate(e, SetEchoes(s, k, live), data, now)
  }

  /** A pending update is filed under the key of its raw seat id. */
  predicate Keyed(e: Env, pending: map<string, SeatEvent>) {
    forall k <- pending :: e.key(pending[k].seatId) == k
  }

  /** The pending updates by raw seat id, as they are written into the cache. */
  function Batch(e: Env, pending: map<string, SeatEvent>): Seats
    requires Keyed(e, pending)
  {
    map id | id in (set k <- pending :: pending[k].seatId) :: pending[e.key(id)].status
  }

  function Flush(e: Env, s: State): State
    requires Keyed(e, s.pending)
  {
    s.(frame := false, timer := false, pending := map[],
       cache := if s.cache.None? then None else Some(s.cache.value + Batch(e, s.pending)))
  }

  // ----- snapshots -----

  /** The device time before which events are assumed to be part of a snapshot. */
  function Cutoff(requestStartedAt: int, generatedAt: Option<int>): int {
    var fromRequest := requestStartedAt - SNAPSHOT_MAX_AGE_MS;
    (if generatedAt.Some? && generatedAt.value < fromRequest then generatedAt.value else fromRequest) - OVERLAY_MARGIN_MS
  }

  function Newer(recent: map<string, Recorded>, cutoff: int): map<string, Recorded> {
    map k | k in recent && recent[k].receivedAt >= cutoff :: recent[k]
  }

  predicate RecentKeyed(e: Env, recent: map<string, Recorded>) {
    forall k <- recent :: e.key(recent[k].seatId) == k
  }

  /** Replaces the entries of seats with newer events, whatever raw id the snapshot spells. */
  function Overlay(e: Env, seats: Seats, newer: map<string, Recorded>): Seats
    requires RecentKeyed(e, newer)
  {
    (map id | id in seats && e.key(id) !in newer :: seats[id])
    + (map id | id in (set k <- newer :: newer[k].seatId) :: newer[e.key(id)].status)
  }

  function LandSnapshot(e: Env, s: State, seats: Seats, cutoff: int, now: int): State
    requires RecentKeyed(e, s.recent)
  {
    var recent := Prune(s.recent, now);
    s.(recent := recent, cache := Some(Overlay(e, seats, Newer(recent, cutoff))))
  }

  // ----- streams -----

  datatype Delivery =
    | V2(data: SeatEvent, at: int)
    | Legacy(data: SeatEvent, at: int)
    | FlushNow(at: int)
    | Snapshot(seats: Seats, requestStartedAt: int, generatedAt: Option<int>, at: int)

  predicate Valid(e: Env, s: State) {
    && Keyed(e, s.pending) && RecentKeyed(e, s.recent)
    // Buffered updates always have a flush ahead of them.
    && (s.pending != map[] ==> s.timer)
  }

  function Handle(e: Env, s: State, d: Delivery): (t: State)
    requires Valid(e, s)
    ensures Valid(e, t)
  {
    match d
    case V2(data, at) => HandleV2(e, s, data, at)
    case Legacy(data, at) => HandleLegacy(e, s, data, at)
    case FlushNow(_) => Flush(e, s)
    case Snapshot(seats, started, generated, at) => LandSnapshot(e, s, seats, Cutoff(started, generated), at)
  }

  /** The same stream handled without legacy copies: v2 events are applied, legacy events ignored. */
  function HandleDirect(e: Env, s: State, d: Delivery): (t: State)
    requires Valid(e, s)
    ensures Valid(e, t)
  {
    match d
    case V2(data, at) => ApplyUpdate(e, s, data, at)
    case Legacy(_, _) => s
    case FlushNow(_) => Flush(e, s)
    case Snapshot(seats, started, generated, at) => LandSnapshot(e, s, seats, Cutoff(started, generated), at)
  }

  function Process(e: Env, s: State, ds: seq<Delivery>): (t: State)
    requires Valid(e, s)
    ensures Valid(e, t)
  {
    if ds == [] then s else Handle(e, Process(e, s, ds[..|ds| - 1]), ds[|ds| - 1])
  }

  function Direct(e: Env, s: State, ds: seq<Delivery>): (t: State)
    requires Valid(e, s)
    ensures Valid(e, t)
  {
    if ds == [] then s else HandleDirect(e, Direct(e, s, ds[..|ds| - 1]), ds[|ds| - 1])
  }

  // ----- which streams the server sends -----

  /** The v2 events of a seat that have a legacy copy. */
  function Announced(e: Env, ds: seq<Delivery>, k: string): seq<Echo> {
    if ds == [] then []
    else
      var d := ds[|ds| - 1];
      Announced(e, ds[..|ds| - 1], k)
      + if d.V2? && e.key(d.data.seatId) == k && !d.data.status.Locked? then [Echo(d.data.status, d.at)] else []
  }

  function Copies(e: Env, ds: seq<Delivery>, k: string): seq<Echo> {
    if ds == [] then []
    else
      var d := ds[|ds| - 1];
      Copies(e, ds[..|ds| - 1], k)
      + if d.Legacy? && e.key(d.data.seatId) == k then [Echo(d.data.status, d.at)] else []
  }

  /** The newest delivery, if it is a legacy event, copies the oldest v2 event of its seat not copied yet, in time. */
  predicate CopyInTurn(e: Env, ds: seq<Delivery>)
    requires ds != []
  {
    var d := ds[|ds| - 1];
    d.Legacy? ==>
      var k := e.key(d.data.seatId);
      var i := |Copies(e, ds[..|ds| - 1], k)|;
      && i < |Announced(e, ds, k)|
      && Announced(e, ds, k)[i].status == d.data.status
      && d.at - Announced(e, ds, k)[i].receivedAt <= ECHO_WINDOW_MS
  }

  /** The device clock does not run back. */
  predicate Timed(ds: seq<Delivery>) {
    forall i, j | 0 <= i < j < |ds| :: ds[i].at <= ds[j].at
  }

  /** Every legacy event is the copy of a v2 event, and copies keep each seat's order. */
  predicate Paired(e: Env, ds: seq<Delivery>) {
    Timed(ds) && forall n | 0 < n <= |ds| :: CopyInTurn(e, ds[..n])
  }

  lemma PairedPrefix(e: Env, ds: seq<Delivery>)
    requires Paired(e, ds) && ds != []
    ensures Paired(e, ds[..|ds| - 1]) && CopyInTurn(e, ds)
  {
    var init := ds[..|ds| - 1];
    forall n | 0 < n <= |init| ensures CopyInTurn(e, init[..n]) { assert init[..n] == ds[..n]; }
    assert ds[..|ds|] == ds;
  }

  predicate Sorted(a: seq<Echo>, last: int) {
    && (forall i, j | 0 <= i < j < |a| :: a[i].receivedAt <= a[j].receivedAt)
    && (forall i | 0 <= i < |a| :: a[i].receivedAt <= last)
  }

  lemma {:induction false} AnnouncedSorted(e: Env, ds: seq<Delivery>, k: string, last: int)
    requires Timed(ds) && forall i | 0 <= i < |ds| :: ds[i].at <= last
    ensures Sorted(Announced(e, ds, k), last)
  {
    if ds != [] {
      AnnouncedSorted(e, ds[..|ds| - 1], k, ds[|ds| - 1].at);
    }
  }

  lemma {:induction false} AllLive(echoes: seq<Echo>, now: int)
    requires forall i | 0 <= i < |echoes| :: now - echoes[i].receivedAt <= ECHO_WINDOW_MS
    ensures Live(echoes, now) == echoes
  {
    if echoes != [] { AllLive(echoes[1..], now); }
  }

  // ----- what the handlers promise -----

  ghost predicate SameButEchoes(s: State, t: State) {
    s.(echoes := map[]) == t.(echoes := map[])
  }

  /** The echoes kept for a seat are its announced events without the ones copied so far. */
  ghost predicate EchoesMatch(e: Env, ds: seq<Delivery>, s: State, k: string) {
    && |Copies(e, ds, k)| <= |Announced(e, ds, k)|
    && EchoesOf(s, k) == Announced(e, ds, k)[|Copies(e, ds, k)|..]
    && (k in s.echoes ==> s.echoes[k] != [])
  }

  /**
   Whatever is delivered, in whatever mix of flushes and snapshots, the handlers
   leave exactly the state that applying the v2 events alone leaves.
   */
  lemma {:induction false} CopiesAreDropped(e: Env, s: State, ds: seq<Delivery>)
    requires Valid(e, s) && s.echoes == map[] && Paired(e, ds)
    ensures SameButEchoes(Process(e, s, ds), Direct(e, s, ds))
    ensures forall k :: EchoesMatch(e, ds, Process(e, s, ds), k)
  {
    if ds != [] {
      var init, d := ds[..|ds| - 1], ds[|ds| - 1];
      PairedPrefix(e, ds);
      CopiesAreDropped(e, s, init);
      var p := Process(e, s, init);
      assert ds == init + [d];
      if d.Legacy? { LegacyIsSkipped(e, init, d, p); }
      StepAgrees(e, p, Direct(e, s, init), d);
      forall k ensures EchoesMatch(e, ds, Process(e, s, ds), k) { StepMatches(e, init, d, p, k); }
    }
  }

  lemma StepAgrees(e: Env, p: State, q: State, d: Delivery)
    requires Valid(e, p) && Valid(e, q) && SameButEchoes(p, q)
    requires d.Legacy? ==> var k := e.key(d.data.seatId);
      HandleLegacy(e, p, d.data, d.at) == SetEchoes(p, k, if EchoesOf(p, k) == [] then [] else EchoesOf(p, k)[1..])
    ensures SameButEchoes(Handle(e, p, d), HandleDirect(e, q, d))
  {
  }

  lemma V2Matches(e: Env, ds: seq<Delivery>, d: Delivery, p: State, k: string)
    requires Valid(e, p) && EchoesMatch(e, ds, p, k) && d.V2?
    ensures EchoesMatch(e, ds + [d], Handle(e, p, d), k)
  {
    var all := ds + [d];
    assert all[..|all| - 1] == ds;
    var a, c := Announced(e, ds, k), |Copies(e, ds, k)|;
    assert Announced(e, all, k)[c..] ==
      a[c..] + if e.key(d.data.seatId) == k && !d.data.status.Locked? then [Echo(d.data.status, d.at)] else [];
  }

  lemma LegacyMatches(e: Env, ds: seq<Delivery>, d: Delivery, p: State, k: string)
    requires Valid(e, p) && EchoesMatch(e, ds, p, k) && d.Legacy?
    requires var l := e.key(d.data.seatId);
      EchoesOf(p, l) != [] && HandleLegacy(e, p, d.data, d.at) == SetEchoes(p, l, EchoesOf(p, l)[1..])
    ensures EchoesMatch(e, ds + [d], Handle(e, p, d), k)
  {
    var all := ds + [d];
    assert all[..|all| - 1] == ds;
    var a, c := Announced(e, ds, k), |Copies(e, ds, k)|;
    if e.key(d.data.seatId) == k { assert a[c..][1..] == a[c + 1..]; }
  }

  lemma StepMatches(e: Env, ds: seq<Delivery>, d: Delivery, p: State, k: string)
    requires Valid(e, p) && EchoesMatch(e, ds, p, k)
    requires d.Legacy? ==> var l := e.key(d.data.seatId);
      EchoesOf(p, l) != [] && HandleLegacy(e, p, d.data, d.at) == SetEchoes(p, l, EchoesOf(p, l)[1..])
    ensures EchoesMatch(e, ds + [d], Handle(e, p, d), k)
  {
    if d.V2? {
      V2Matches(e, ds, d, p, k);
    } else if d.Legacy? {
      LegacyMatches(e, ds, d, p, k);
    } else {
      assert (ds + [d])[..|ds|] == ds;
    }
  }

  lemma LegacyIsSkipped(e: Env, ds: seq<Delivery>, d: Delivery, p: State)
    requires d.Legacy? && Paired(e, ds + [d])
    requires forall k :: EchoesMatch(e, ds, p, k)
    ensures var k := e.key(d.data.seatId);
      && EchoesOf(p, k) != []
      && HandleLegacy(e, p, d.data, d.at) == SetEchoes(p, k, EchoesOf(p, k)[1..])
  {
    var k := e.key(d.data.seatId);
    var all := ds + [d];
    PairedPrefix(e, all);
    assert all[..|all| - 1] == ds;
    assert EchoesMatch(e, ds, p, k);
    AnnouncedSorted(e, all, k, d.at);
    var live := EchoesOf(p, k);
    var a, c := Announced(e, all, k), |Copies(e, ds, k)|;
    assert a == Announced(e, ds, k) && live == a[c..];
    forall i | 0 <= i < |live| ensures d.at - live[i].receivedAt <= ECHO_WINDOW_MS {
      assert live[i] == a[c + i] && a[c].receivedAt <= a[c + i].receivedAt;
    }
    AllLive(live, d.at);
    assert live[..0] + live[1..] == live[1..];
  }

  /** A legacy event as the v2 event it stands for. */
  function AsV2(d: Delivery): Delivery {
    if d.Legacy? then V2(d.data, d.at) else d
  }

  function AllAsV2(ds: seq<Delivery>): (r: seq<Delivery>)
    ensures |r| == |ds| && forall i | 0 <= i < |r| :: r[i] == AsV2(ds[i])
  {
    seq(|ds|, i requires 0 <= i < |ds| => AsV2(ds[i]))
  }

  lemma DirectMore(e: Env, s: State, ds: seq<Delivery>)
    requires Valid(e, s) && ds != []
    ensures Direct(e, s, AllAsV2(ds)) == HandleDirect(e, Direct(e, s, AllAsV2(ds[..|ds| - 1])), AsV2(ds[|ds| - 1]))
  {
    var all := AllAsV2(ds);
    assert all[..|all| - 1] == AllAsV2(ds[..|ds| - 1]);
  }

  /** On a stream without v2 events every legacy event is applied. */
  lemma {:induction false} LegacyAloneIsApplied(e: Env, s: State, ds: seq<Delivery>)
    requires Valid(e, s) && s.echoes == map[] && forall d <- ds :: !d.V2?
    ensures Process(e, s, ds) == Direct(e, s, AllAsV2(ds))
  {
    if ds != [] {
      LegacyAloneIsApplied(e, s, ds[..|ds| - 1]);
      DirectMore(e, s, ds);
      NoEchoes(e, s, ds[..|ds| - 1]);
      assert !ds[|ds| - 1].V2?;
    }
  }

  lemma {:induction false} NoEchoes(e: Env, s: State, ds: seq<Delivery>)
    requires Valid(e, s) && s.echoes == map[] && forall d <- ds :: !d.V2?
    ensures Process(e, s, ds).echoes == map[]
  {
    if ds != [] {
      NoEchoes(e, s, ds[..|ds| - 1]);
      assert !ds[|ds| - 1].V2?;
    }
  }

  // ----- what the seat map shows -----

  /** The status of the last v2 event of a seat. */
  function LastStatus(e: Env, ds: seq<Delivery>, k: string): Option<SeatState> {
    if ds == [] then None
    else
      var d := ds[|ds| - 1];
      if d.V2? && e.key(d.data.seatId) == k then Some(d.data.status)
      else LastStatus(e, ds[..|ds| - 1], k)
  }

  /** The seat shown under this raw id: its buffered update, or what the cache holds. */
  function Shown(e: Env, s: State, id: string): Option<SeatState>
    requires s.cache.Some?
  {
    if e.key(id) in s.pending && s.pending[e.key(id)].seatId == id then Some(s.pending[e.key(id)].status)
    else if id in s.cache.value then Some(s.cache.value[id])
    else None
  }

  lemma FlushShows(e: Env, s: State, id: string)
    requires Valid(e, s) && s.cache.Some?
    ensures Flush(e, s).cache.Some? && Shown(e, Flush(e, s), id) == Shown(e, s, id)
  {
    var batch := Batch(e, s.pending);
    if id in batch {
      var k :| k in s.pending && s.pending[k].seatId == id;
      assert e.key(id) == k;
    }
    if e.key(id) in s.pending && s.pending[e.key(id)].seatId == id { assert id in batch; }
  }

  lemma {:induction false} DirectShows(e: Env, s: State, ds: seq<Delivery>, id: string)
    requires Valid(e, s) && s.cache.Some? && forall d <- ds :: !d.Snapshot?
    requires forall d <- ds :: d.V2? && e.key(d.data.seatId) == e.key(id) ==> d.data.seatId == id
    ensures var t := Direct(e, s, ds);
      t.cache.Some? && Shown(e, t, id) == match LastStatus(e, ds, e.key(id)) case None => Shown(e, s, id) case Some(st) => Some(st)
  {
    if ds != [] {
      var init, d := ds[..|ds| - 1], ds[|ds| - 1];
      DirectShows(e, s, init, id);
      assert d in ds;
      if d.FlushNow? { FlushShows(e, Direct(e, s, init), id); }
    }
  }

  /**
   After any delivered prefix and a flush, the cache shows every seat in the state
   of its last v2 event, and leaves the other seats as they were.
   */
  lemma SeatMapShowsLastUpdate(e: Env, s: State, ds: seq<Delivery>, id: string)
    requires Valid(e, s) && s.echoes == map[] && s.pending == map[] && s.cache.Some?
    requires Paired(e, ds) && forall d <- ds :: !d.Snapshot?
    requires forall d <- ds :: d.V2? && e.key(d.data.seatId) == e.key(id) ==> d.data.seatId == id
    ensures var t := Flush(e, Process(e, s, ds));
      && t.cache.Some? && t.pending == map[]
      && match LastStatus(e, ds, e.key(id))
         case Some(status) => id in t.cache.value && t.cache.value[id] == status
         case None =>
           && (id in t.cache.value <==> id in s.cache.value)
           && (id in s.cache.value ==> t.cache.value[id] == s.cache.value[id])
  {
    CopiesAreDropped(e, s, ds);
    DirectShows(e, s, ds, id);
    FlushShows(e, Direct(e, s, ds), id);
    FlushShows(e, Process(e, s, ds), id);
  }

  // ----- snapshots do not undo events -----

  /** The event of a seat that the page recorded last. */
  lemma {:induction false} RecordsLast(e: Env, s: State, ds: seq<Delivery>, i: nat)
    requires Valid(e, s) && i < |ds| && ds[i].V2? && Timed(ds)
    requires ds[|ds| - 1].at - ds[i].at <= OVERLAY_RETENTION_MS
    requires forall j | i < j < |ds| :: ds[j].V2? ==> e.key(ds[j].data.seatId) != e.key(ds[i].data.seatId)
    ensures var t := Direct(e, s, ds); var k := e.key(ds[i].data.seatId);
      k in t.recent && t.recent[k] == Recorded(ds[i].data.seatId, ds[i].data.status, ds[i].at)
  {
    if i < |ds| - 1 {
      var init := ds[..|ds| - 1];
      assert init[|init| - 1].at <= ds[|ds| - 1].at;
      RecordsLast(e, s, init, i);
    }
  }

  lemma LastIsNewer(e: Env, s: State, ds: seq<Delivery>, i: nat, readAt: int, now: int)
    requires Valid(e, s) && Timed(ds) && i < |ds| && ds[i].V2? && readAt <= ds[i].at
    requires ds[|ds| - 1].at <= now && now - ds[i].at <= OVERLAY_RETENTION_MS
    requires forall j | i < j < |ds| :: ds[j].V2? ==> e.key(ds[j].data.seatId) != e.key(ds[i].data.seatId)
    ensures var newer := Newer(Prune(Direct(e, s, ds).recent, now), readAt); var k := e.key(ds[i].data.seatId);
      k in newer && newer[k] == Recorded(ds[i].data.seatId, ds[i].data.status, ds[i].at)
  {
    RecordsLast(e, s, ds, i);
  }

  /**
   A snapshot that the server read no later than the last event of a seat arrived
   does not undo that event: the cache shows the event's state, under its raw id
   only, as long as the event is at most ten seconds old.
   */
  lemma SnapshotKeepsNewerEvent(e: Env, s: State, ds: seq<Delivery>, d: Delivery, i: nat, readAt: int, id: string)
    requires Valid(e, s) && s.echoes == map[] && Paired(e, ds + [d])
    requires d.Snapshot? && Cutoff(d.requestStartedAt, d.generatedAt) <= readAt
    requires i < |ds| && ds[i].V2? && readAt <= ds[i].at && d.at - ds[i].at <= OVERLAY_RETENTION_MS
    requires forall j | i < j < |ds| :: ds[j].V2? ==> e.key(ds[j].data.seatId) != e.key(ds[i].data.seatId)
    ensures var t := Process(e, s, ds + [d]); var data := ds[i].data;
      && t.cache.Some? && data.seatId in t.cache.value && t.cache.value[data.seatId] == data.status
      && (id in t.cache.value && e.key(id) == e.key(data.seatId) ==> id == data.seatId)
  {
    EarlierIsTimed(ds, d);
    LandedShows(e, s, ds, d);
    var cutoff := Cutoff(d.requestStartedAt, d.generatedAt);
    LastIsNewer(e, s, ds, i, cutoff, d.at);
    var newer := Newer(Prune(Direct(e, s, ds).recent, d.at), cutoff);
    OverlayShows(e, d.seats, newer, ds[i].data.seatId);
    OverlayShows(e, d.seats, newer, id);
  }

  /** The event recorded last for this seat. */
  function LastEvent(e: Env, s: State, ds: seq<Delivery>, k: string): Option<Recorded> {
    if ds == [] then if k in s.recent then Some(s.recent[k]) else None
    else
      var d := ds[|ds| - 1];
      if d.V2? && e.key(d.data.seatId) == k then Some(Recorded(d.data.seatId, d.data.status, d.at))
      else LastEvent(e, s, ds[..|ds| - 1], k)
  }

  /** Only events too old for any snapshot requested from now on are forgotten. */
  lemma {:induction false} RecordedExactly(e: Env, s: State, ds: seq<Delivery>, k: string, now: int)
    requires Valid(e, s) && Timed(ds) && forall i | 0 <= i < |ds| :: ds[i].at <= now
    ensures var recent := Prune(Direct(e, s, ds).recent, now); var last := LastEvent(e, s, ds, k);
      && (k in recent <==> last.Some? && now - last.value.receivedAt <= OVERLAY_RETENTION_MS)
      && (k in recent ==> recent[k] == last.value)
  {
    if ds != [] {
      RecordedExactly(e, s, ds[..|ds| - 1], k, ds[|ds| - 1].at);
      RecordedExactly(e, s, ds[..|ds| - 1], k, now);
    }
  }

  /** Received at or after the cutoff, and not forgotten by now. */
  predicate Counts(receivedAt: int, cutoff: int, now: int) {
    receivedAt >= cutoff && now - receivedAt <= OVERLAY_RETENTION_MS
  }

  predicate IsEventOf(e: Env, d: Delivery, k: string) {
    d.V2? && e.key(d.data.seatId) == k
  }

  /** An event of this seat that a snapshot read before the cutoff cannot undo. */
  predicate HasNewerEvent(e: Env, s: State, ds: seq<Delivery>, k: string, cutoff: int, now: int) {
    || (exists i | 0 <= i < |ds| :: IsEventOf(e, ds[i], k) && Counts(ds[i].at, cutoff, now))
    || (k in s.recent && Counts(s.recent[k].receivedAt, cutoff, now))
  }

  /** The seat was seen in this state under this raw id by such an event. */
  predicate ShownByEvent(e: Env, s: State, ds: seq<Delivery>, id: string, status: SeatState, cutoff: int, now: int) {
    var k := e.key(id);
    || (exists i | 0 <= i < |ds| :: IsEventOf(e, ds[i], k) && Counts(ds[i].at, cutoff, now) && ds[i].data == SeatEvent(id, status))
    || (k in s.recent && Counts(s.recent[k].receivedAt, cutoff, now)
        && s.recent[k].seatId == id && s.recent[k].status == status)
  }

  /** What was recorded before the stream is not younger than its deliveries. */
  predicate Before(s: State, ds: seq<Delivery>) {
    forall k <- s.recent, i | 0 <= i < |ds| :: s.recent[k].receivedAt <= ds[i].at
  }

  lemma {:induction false} LastIsYoungest(e: Env, s: State, ds: seq<Delivery>, k: string, cutoff: int, now: int)
    requires Timed(ds) && Before(s, ds) && forall i | 0 <= i < |ds| :: ds[i].at <= now
    ensures var last := LastEvent(e, s, ds, k);
      && (last.Some? && Counts(last.value.receivedAt, cutoff, now) <==> HasNewerEvent(e, s, ds, k, cutoff, now))
      && (last.Some? && Counts(last.value.receivedAt, cutoff, now) && e.key(last.value.seatId) == k ==>
            ShownByEvent(e, s, ds, last.value.seatId, last.value.status, cutoff, now))
  {
    if ds != [] {
      var init, d := ds[..|ds| - 1], ds[|ds| - 1];
      LastIsYoungest(e, s, init, k, cutoff, now);
      forall i | 0 <= i < |init| ensures init[i] == ds[i] {}
      if IsEventOf(e, d, k) && Counts(d.at, cutoff, now) {
        assert ds[|ds| - 1] == d;
      }
    }
  }

  /** Laying the newer events over a response, seat by seat. */
  lemma OverlayShows(e: Env, seats: Seats, newer: map<string, Recorded>, id: string)
    requires RecentKeyed(e, newer)
    ensures var shown := Overlay(e, seats, newer); var k := e.key(id);
      && (k !in newer ==> (id in shown <==> id in seats) && (id in seats ==> shown[id] == seats[id]))
      && (k in newer ==> (id in shown <==> id == newer[k].seatId) && (id in shown ==> shown[id] == newer[k].status))
  {
    var k := e.key(id);
    if k in newer && id == newer[k].seatId { assert id in (set j <- newer :: newer[j].seatId); }
  }

  /** The newer event of this seat, laid over the snapshot, is the youngest that counts. */
  lemma NewerIsYoungest(e: Env, s: State, ds: seq<Delivery>, k: string, cutoff: int, now: int)
    requires Valid(e, s) && Timed(ds) && Before(s, ds) && forall i | 0 <= i < |ds| :: ds[i].at <= now
    ensures var newer := Newer(Prune(Direct(e, s, ds).recent, now), cutoff);
      && (k in newer <==> HasNewerEvent(e, s, ds, k, cutoff, now))
      && (k in newer && e.key(newer[k].seatId) == k ==>
            ShownByEvent(e, s, ds, newer[k].seatId, newer[k].status, cutoff, now))
  {
    RecordedExactly(e, s, ds, k, now);
    LastIsYoungest(e, s, ds, k, cutoff, now);
  }

  lemma LandedShows(e: Env, s: State, ds: seq<Delivery>, d: Delivery)
    requires Valid(e, s) && s.echoes == map[] && Paired(e, ds + [d]) && d.Snapshot?
    ensures Process(e, s, ds + [d]).cache ==
            Some(Overlay(e, d.seats, Newer(Prune(Direct(e, s, ds).recent, d.at), Cutoff(d.requestStartedAt, d.generatedAt))))
  {
    assert (ds + [d])[..|ds|] == ds;
    CopiesAreDropped(e, s, ds + [d]);
  }

  /**
   A landed snapshot shows the response for every seat without a newer event, and
   nothing else but the newer events of the others, each under its raw id.
   */
  lemma SnapshotShowsResponse(e: Env, s: State, ds: seq<Delivery>, d: Delivery, id: string)
    requires Valid(e, s) && s.echoes == map[] && Paired(e, ds + [d]) && Before(s, ds) && d.Snapshot?
    ensures var cutoff := Cutoff(d.requestStartedAt, d.generatedAt); var t := Process(e, s, ds + [d]);
      && t.cache.Some?
      && (!HasNewerEvent(e, s, ds, e.key(id), cutoff, d.at) ==>
            && (id in t.cache.value <==> id in d.seats)
            && (id in d.seats ==> t.cache.value[id] == d.seats[id]))
      && (HasNewerEvent(e, s, ds, e.key(id), cutoff, d.at) && id in t.cache.value ==>
            ShownByEvent(e, s, ds, id, t.cache.value[id], cutoff, d.at))
  {
    var cutoff := Cutoff(d.requestStartedAt, d.generatedAt);
    EarlierIsTimed(ds, d);
    LandedShows(e, s, ds, d);
    NewerIsYoungest(e, s, ds, e.key(id), cutoff, d.at);
    OverlayShows(e, d.seats, Newer(Prune(Direct(e, s, ds).recent, d.at), cutoff), id);
  }

  lemma EarlierIsTimed(ds: seq<Delivery>, d: Delivery)
    requires Timed(ds + [d])
    ensures Timed(ds) && forall i | 0 <= i < |ds| :: ds[i].at <= d.at
  {
    var all := ds + [d];
    forall i, j | 0 <= i < j < |ds| ensures ds[i].at <= ds[j].at { assert all[i].at <= all[j].at; }
    forall i | 0 <= i < |ds| ensures ds[i].at <= d.at { assert all[i].at <= all[|ds|].at; }
  }

  /**
   The cutoff is safe: a response read at most a second before its request, or at the
   time it states, has every event received from the read on counted as newer, with
   half a second to spare for clock error; and it is no earlier than that demands.
   */
  lemma CutoffIsSafe(requestStartedAt: int, generatedAt: Option<int>, readAt: int)
    ensures var cutoff := Cutoff(requestStartedAt, generatedAt);
      && (readAt >= requestStartedAt - 1000 ==> cutoff <= readAt - 500)
      && (generatedAt.Some? && readAt >= generatedAt.value ==> cutoff <= readAt - 500)
      && (cutoff == requestStartedAt - 1000 - 500 || (generatedAt.Some? && cutoff == generatedAt.value - 500))
  {
  }

  /** A flush is scheduled exactly while updates are buffered, on a frame too where there are frames. */
  predicate FlushAhead(e: Env, s: State) {
    (s.timer <==> s.pending != map[]) && (s.frame <==> s.timer && e.hasFrames)
  }

  lemma {:induction false} BufferedAreFlushed(e: Env, s: State, ds: seq<Delivery>)
    requires Valid(e, s) && FlushAhead(e, s)
    ensures FlushAhead(e, Process(e, s, ds))
  {
    if ds != [] {
      var p, d := Process(e, s, ds[..|ds| - 1]), ds[|ds| - 1];
      BufferedAreFlushed(e, s, ds[..|ds| - 1]);
      if d.V2? || d.Legacy? {
        assert e.key(d.data.seatId) in ApplyUpdate(e, p, d.data, d.at).pending;
      }
    }
  }

  /** No recorded event outlives the retention: an update or a snapshot forgets those. */
  lemma StaleAreForgotten(e: Env, s: State, d: Delivery, k: string)
    requires Valid(e, s) && (d.V2? || d.Snapshot?) && k in Handle(e, s, d).recent
    ensures d.at - Handle(e, s, d).recent[k].receivedAt <= OVERLAY_RETENTION_MS
  {
  }

  // ----- legacy events that are no copy -----

  /** A copy of this status is still expected. */
  predicate IsExpected(s: State, k: string, status: SeatState, now: int) {
    exists i | 0 <= i < |EchoesOf(s, k)| ::
      EchoesOf(s, k)[i].status == status && now - EchoesOf(s, k)[i].receivedAt <= ECHO_WINDOW_MS
  }

  lemma {:induction false} LiveHas(echoes: seq<Echo>, now: int, echo: Echo)
    ensures echo in Live(echoes, now) <==> echo in echoes && now - echo.receivedAt <= ECHO_WINDOW_MS
  {
    if echoes != [] { LiveHas(echoes[1..], now, echo); }
  }

  lemma {:induction false} FindsStatus(echoes: seq<Echo>, status: SeatState)
    ensures var i := FindStatus(echoes, status);
      && (i < |echoes| ==> echoes[i].status == status)
      && forall j | 0 <= j < i :: echoes[j].status != status
  {
    if echoes != [] && echoes[0].status != status {
      FindsStatus(echoes[1..], status);
      var i := FindStatus(echoes[1..], status);
      forall j | 0 <= j < i + 1 ensures echoes[j].status != status { if j > 0 { assert echoes[1..][j - 1] == echoes[j]; } }
    }
  }

  lemma ExpectedIsFound(s: State, k: string, status: SeatState, now: int)
    ensures var live := Live(EchoesOf(s, k), now); FindStatus(live, status) < |live| <==> IsExpected(s, k, status, now)
  {
    var echoes := EchoesOf(s, k);
    var live := Live(echoes, now);
    FindsStatus(live, status);
    if i :| 0 <= i < |echoes| && echoes[i].status == status && now - echoes[i].receivedAt <= ECHO_WINDOW_MS {
      LiveHas(echoes, now, echoes[i]);
    }
    if FindStatus(live, status) < |live| { LiveHas(echoes, now, live[FindStatus(live, status)]); }
  }

  /**
   A legacy event is dropped exactly when a copy of its status is expected and not
   out of date, and then one such copy fewer is expected; otherwise it is applied,
   as a v2 event would be, and only copies out of date are forgotten.
   */
  lemma LegacyDroppedExactly(e: Env, s: State, data: SeatEvent, now: int)
    ensures var k := e.key(data.seatId); var t := HandleLegacy(e, s, data, now); var live := Live(EchoesOf(s, k), now);
      && (IsExpected(s, k, data.status, now) ==>
            && SameButEchoes(t, s)
            && exists i | 0 <= i < |live| :: live[i].status == data.status && EchoesOf(t, k) == live[..i] + live[i + 1..])
      && (!IsExpected(s, k, data.status, now) ==> SameButEchoes(t, ApplyUpdate(e, s, data, now)) && EchoesOf(t, k) == live)
      && (forall j | j != k :: EchoesOf(t, j) == EchoesOf(s, j))
  {
    var k := e.key(data.seatId);
    ExpectedIsFound(s, k, data.status, now);
    FindsStatus(Live(EchoesOf(s, k), now), data.status);
  }

  /** Every copy expected is that of a v2 event delivered before. */
  lemma {:induction false} ExpectedWereDelivered(e: Env, s: State, ds: seq<Delivery>, k: string, echo: Echo)
    requires Valid(e, s) && s.echoes == map[] && echo in EchoesOf(Process(e, s, ds), k)
    ensures exists i | 0 <= i < |ds| :: IsEventOf(e, ds[i], k) && ds[i].data.status == echo.status && ds[i].at == echo.receivedAt
  {
    if ds != [] {
      var init, d := ds[..|ds| - 1], ds[|ds| - 1];
      var p := Process(e, s, init);
      if d.Legacy? {
        LegacyDroppedExactly(e, p, d.data, d.at);
        LiveHas(EchoesOf(p, k), d.at, echo);
      }
      if echo in EchoesOf(p, k) {
        ExpectedWereDelivered(e, s, init, k, echo);
        var i :| 0 <= i < |init| && IsEventOf(e, init[i], k) && init[i].data.status == echo.status && init[i].at == echo.receivedAt;
        assert ds[i] == init[i];
      } else {
        assert IsEventOf(e, ds[|ds| - 1], k);
      }
    }
  }

  /** On any stream, a legacy event without a v2 event of its seat and status in the last ten seconds is applied. */
  lemma StrangeLegacyIsApplied(e: Env, s: State, ds: seq<Delivery>, d: Delivery)
    requires Valid(e, s) && s.echoes == map[] && d.Legacy?
    requires forall i | 0 <= i < |ds| :: IsEventOf(e, ds[i], e.key(d.data.seatId)) && ds[i].data.status == d.data.status ==>
      d.at - ds[i].at > ECHO_WINDOW_MS
    ensures SameButEchoes(Process(e, s, ds + [d]), ApplyUpdate(e, Process(e, s, ds), d.data, d.at))
  {
    var p, k := Process(e, s, ds), e.key(d.data.seatId);
    assert (ds + [d])[..|ds|] == ds;
    if IsExpected(p, k, d.data.status, d.at) {
      var j :| 0 <= j < |EchoesOf(p, k)| && EchoesOf(p, k)[j].status == d.data.status
        && d.at - EchoesOf(p, k)[j].receivedAt <= ECHO_WINDOW_MS;
      ExpectedWereDelivered(e, s, ds, k, EchoesOf(p, k)[j]);
    }
    LegacyDroppedExactly(e, p, d.data, d.at);
  }
}

/** The handlers as they run: maps and timers of one socket, updated in place. */
module BookingSocket {
  import U = SeatUpdates
  import opened SeatUpdates

  class BookingSocket {
    const key: string -> string
    const hasFrames: bool
    var pendingSeatUpdates: map<string, SeatEvent>
    var pendingLegacyEchoes: map<string, seq<Echo>>
    var recentEvents: map<string, Recorded>
    var flushFrame: bool
    var flushTimer: bool
    var seatStatus: Option<Seats>

    function Environment(): Env {
      Env(key, hasFrames)
    }

    function View(): State
      reads this
    {
      State(pendingSeatUpdates, pendingLegacyEchoes, recentEvents, flushFrame, flushTimer, seatStatus)
    }

    constructor (key: string -> string, hasFrames: bool, seatStatus: Option<Seats>)
      ensures this.key == key && this.hasFrames == hasFrames
      ensures View() == State(map[], map[], map[], false, false, seatStatus) && Valid(Environment(), View())
    {
      this.key, this.hasFrames, this.seatStatus := key, hasFrames, seatStatus;
      pendingSeatUpdates, pendingLegacyEchoes, recentEvents := map[], map[], map[];
      flushFrame, flushTimer := false, false;
    }

    method CancelScheduledFlush()
      modifies this`flushFrame, this`flushTimer
      ensures !flushFrame && !flushTimer
    {
      if flushFrame { flushFrame := false; }
      if flushTimer { flushTimer := false; }
    }

    method ScheduleFlush()
      modifies this`flushFrame, this`flushTimer
      ensures View() == U.ScheduleFlush(Environment(), old(View()))
    {
      if !flushFrame && hasFrames { flushFrame := true; }
      if !flushTimer { flushTimer := true; }
    }

    /** The last pending status of each raw seat id. */
    method CollectBatch() returns (batch: Seats)
      requires Keyed(Environment(), pendingSeatUpdates)
      ensures batch == Batch(Environment(), pendingSeatUpdates)
    {
      batch := map[];
      var keys := pendingSeatUpdates.Keys;
      while keys != {}
        invariant keys <= pendingSeatUpdates.Keys
        invariant forall k <- pendingSeatUpdates.Keys - keys ::
          pendingSeatUpdates[k].seatId in batch && batch[pendingSeatUpdates[k].seatId] == pendingSeatUpdates[k].status
        invariant forall id <- batch :: key(id) in pendingSeatUpdates && pendingSeatUpdates[key(id)].seatId == id
        decreases |keys|
      {
        var k :| k in keys;
        keys := keys - {k};
        assert key(pendingSeatUpdates[k].seatId) == k;
        batch := batch[pendingSeatUpdates[k].seatId := pendingSeatUpdates[k].status];
      }
    }

    /** Runs on an animation frame, on the timer, and when the tab is hidden or shown. */
    method FlushSeatUpdates()
      requires Valid(Environment(), View())
      modifies this
      ensures View() == Flush(Environment(), old(View()))
    {
      CancelScheduledFlush();
      if pendingSeatUpdates == map[] {
        assert Batch(Environment(), pendingSeatUpdates) == map[];
        assert seatStatus.Some? ==> seatStatus.value + map[] == seatStatus.value;
        return;
      }
      var batch := CollectBatch();
      pendingSeatUpdates := map[];
      if seatStatus.Some? {
        seatStatus := Some(seatStatus.value + batch);
      }
    }

    method ApplySeatUpdate(data: SeatEvent, now: int)
      modifies this
      ensures View() == ApplyUpdate(Environment(), old(View()), data, now)
    {
      var k := key(data.seatId);
      recentEvents := Prune(recentEvents, now)[k := Recorded(data.seatId, data.status, now)];
      pendingSeatUpdates := pendingSeatUpdates[k := data];
      ScheduleFlush();
    }

    method HandleSeatUpdateV2(data: SeatEvent, now: int)
      modifies this
      ensures View() == HandleV2(Environment(), old(View()), data, now)
    {
      if !data.status.Locked? {
        var k := key(data.seatId);
        var echoes := if k in pendingLegacyEchoes then pendingLegacyEchoes[k] else [];
        pendingLegacyEchoes := pendingLegacyEchoes[k := echoes + [Echo(data.status, now)]];
      }
      ApplySeatUpdate(data, now);
    }

    method HandleLegacySeatUpdate(data: SeatEvent, now: int)
      modifies this
      ensures View() == HandleLegacy(Environment(), old(View()), data, now)
    {
      var k := key(data.seatId);
      if k in pendingLegacyEchoes {
        var live := LiveEchoes(pendingLegacyEchoes[k], now);
        var matchIndex := IndexOfStatus(live, data.status);
        var matched := matchIndex < |live|;
        if matched {
          live := live[..matchIndex] + live[matchIndex + 1..];
        }
        if live != [] {
          pendingLegacyEchoes := pendingLegacyEchoes[k := live];
        } else {
          pendingLegacyEchoes := pendingLegacyEchoes - {k};
        }
        if matched { return; }
      }
      ApplySeatUpdate(data, now);
    }

    static method LiveEchoes(echoes: seq<Echo>, now: int) returns (live: seq<Echo>)
      ensures live == Live(echoes, now)
    {
      live := [];
      for i := 0 to |echoes|
        invariant live + Live(echoes[i..], now) == Live(echoes, now)
      {
        assert echoes[i..][1..] == echoes[i + 1..];
        if now - echoes[i].receivedAt <= ECHO_WINDOW_MS {
          live := live + [echoes[i]];
        }
      }
    }

    static method IndexOfStatus(echoes: seq<Echo>, status: SeatState) returns (i: nat)
      ensures i == FindStatus(echoes, status)
      ensures i < |echoes| ==> echoes[i].status == status
      ensures forall j | 0 <= j < i :: echoes[j].status != status
    {
      i := 0;
      while i < |echoes| && echoes[i].status != status
        invariant i <= |echoes|
        invariant i + FindStatus(echoes[i..], status) == FindStatus(echoes, status)
        invariant forall j | 0 <= j < i :: echoes[j].status != status
      {
        assert echoes[i..][1..] == echoes[i + 1..];
        i := i + 1;
      }
    }

    /** A seat-status response replaces the cache, with the newer events on top of it. */
    method ReceiveSnapshot(seats: Seats, requestStartedAt: int, generatedAt: Option<int>, now: int)
      requires Valid(Environment(), View())
      modifies this
      ensures View() == LandSnapshot(Environment(), old(View()), seats, Cutoff(requestStartedAt, generatedAt), now)
    {
      recentEvents := Prune(recentEvents, now);
      seatStatus := Some(Overlay(Environment(), seats, Newer(recentEvents, Cutoff(requestStartedAt, generatedAt))));
    }
  }
}
