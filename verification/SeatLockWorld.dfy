/**
 The page together with the server: every interleaving of clicks, requests
 reaching the server, answers, suspended operations going on, and my-locks
 snapshots.
 */
module SeatLockWorld {
  import opened SeatLockPage

  /**
   A my-locks request. touched: an operation of this showtime took effect on the
   server after the request was sent, so the value read may miss it.
   */
  datatype Snapshot = Snapshot(showtime: Showtime, seq_: nat, touched: bool, value: Option<set<SeatKey>>)

  /**
   held: the locks the server keeps for this user. leaked: those among them whose
   release the server refused or never carried out, or whose lock request got no
   definite answer while the seat was still wanted. Only a my-locks read can find
   a leaked lock again.
   */
  datatype World = World(page: Page, held: set<SeatRef>, leaked: set<SeatRef>, snaps: seq<Snapshot>)

  datatype Step =
    | DoLockClick(ref: SeatRef, limit: Option<nat>)
    | DoReleaseClick(ref: SeatRef)
    | DoClearClick
    | DoSwitchShowtime(next: Option<Showtime>, release: bool)
    | ApplyLock(id: nat, verdict: Verdict, took: bool)
    | ApplyUnlock(id: nat, released: bool)
    | StartSweep(id: nat)
    | SweepSeat(id: nat, seat: SeatKey, released: bool)
    | FinishSweep(id: nat)
    | Answer(id: nat)
    | FailLocally(id: nat)
    | Resume(ref: SeatRef)
    | Wake(ref: SeatRef)
    | EndUnlock(ref: SeatRef)
    | EndReleaseAll(showtime: Showtime)
    | RequestSnapshot(showtime: Showtime)
    | ReadSnapshot(index: nat, value: set<SeatKey>)
    | Reconcile(index: nat)

  function HeldOf(w: World, s: Showtime): set<SeatKey> {
    set r <- w.held | r.showtime == s :: r.seat
  }

  predicate InNet(w: World, id: nat, status: Status) {
    id in w.page.net && w.page.net[id].status == status
  }

  /** The promise the operation is suspended on has settled. */
  ghost predicate Wakeable(p: Page, phase: Phase) {
    match phase
    case Blocked(on) => forall i <- on :: Settled(p, i)
    case AwaitReleaseAll(i) => Settled(p, i)
    case AwaitUnlock(i) => Settled(p, i)
    case Requesting(_, _) => false
  }

  /** Seats a release-all in this status has not dealt with yet. */
  function Uncovered(w: World, id: nat): set<SeatRef>
    requires id in w.page.net && w.page.net[id].target.UnlockAll?
  {
    var r := w.page.net[id];
    match r.status
    case Sent => set x <- w.held | x.showtime == r.target.showtime
    case Releasing(todo) => set x <- w.held | x.showtime == r.target.showtime && x.seat in todo
    case _ => {}
  }

  /**
   What the controller expects of a lock click: it is for the selected showtime and
   for a seat that is not selected yet, or it adds no seat to the selection. Either
   way it is safe while the seat's own operation in the selected showtime runs.
   */
  predicate ClickGuard(p: Page, ref: SeatRef) {
    p.showtime.Some? ==>
      || SeatRef(p.showtime.value, ref.seat) in p.locks
      || (p.showtime.value == ref.showtime <==> ref.seat !in p.selected)
  }

  /**
   What it expects of a change of showtime: the old showtime is released exactly
   when it is left, unless every selected seat still has its own operation running.
   */
  predicate SwitchGuard(p: Page, next: Option<Showtime>, release: bool) {
    p.showtime.Some? ==>
      || (release <==> next != p.showtime)
      || forall k <- p.selected :: SeatRef(p.showtime.value, k) in p.locks
  }

  /** The guards of the page. */
  ghost predicate PageGuard(p: Page, step: Step) {
    match step
    case DoLockClick(ref, _) => ClickGuard(p, ref)
    case DoSwitchShowtime(next, release) => SwitchGuard(p, next, release)
    case _ => true
  }

  ghost predicate Enabled(w: World, step: Step) {
    var p := w.page;
    match step
    case DoLockClick(_, _) => true
    case DoReleaseClick(_) => true
    case DoClearClick => p.showtime.Some?
    case DoSwitchShowtime(_, _) => true
    case ApplyLock(id, verdict, took) =>
      && InNet(w, id, Sent) && p.net[id].target.LockSeat?
      && (took ==> p.net[id].target.ref !in w.held)
      && (verdict.Granted? ==> took) && (verdict.Refused? ==> !took)
    case ApplyUnlock(id, _) => InNet(w, id, Sent) && p.net[id].target.UnlockSeat?
    case StartSweep(id) => InNet(w, id, Sent) && p.net[id].target.UnlockAll?
    case SweepSeat(id, seat, _) =>
      && id in p.net && p.net[id].target.UnlockAll?
      && p.net[id].status.Releasing? && seat in p.net[id].status.todo
    case FinishSweep(id) =>
      && id in p.net && p.net[id].target.UnlockAll?
      && (p.net[id].status.Sent? || p.net[id].status.Releasing?)
    case Answer(id) => id in p.net && p.net[id].status.Applied?
    case FailLocally(id) => InNet(w, id, Sent) && p.net[id].target.LockSeat?
    case Resume(ref) =>
      && ref in p.locks && p.locks[ref].phase.Requesting?
      && p.locks[ref].phase.request in p.net && p.net[p.locks[ref].phase.request].status.Answered?
    case Wake(ref) => ref in p.locks && Wakeable(p, p.locks[ref].phase)
    case EndUnlock(ref) =>
      && ref in p.unlocks && p.unlocks[ref] in p.net && p.net[p.unlocks[ref]].status.Answered?
    case EndReleaseAll(s) =>
      && s in p.releaseAlls && p.releaseAlls[s] in p.net && p.net[p.releaseAlls[s]].status.Answered?
    case RequestSnapshot(_) => true
    case ReadSnapshot(i, value) =>
      && i < |w.snaps| && w.snaps[i].value.None?
      && (!w.snaps[i].touched ==> value == HeldOf(w, w.snaps[i].showtime))
    case Reconcile(i) =>
      && i < |w.snaps| && w.snaps[i].value.Some? && p.showtime == Some(w.snaps[i].showtime)
      && IsSnapshotCurrent(p, w.snaps[i].seq_, w.snaps[i].showtime)
  }

  /** Server and network: steps that need no further user action. */
  predicate IsSystemStep(step: Step) {
    !(step.DoLockClick? || step.DoReleaseClick? || step.DoClearClick? || step.DoSwitchShowtime?
      || step.RequestSnapshot? || step.ReadSnapshot? || step.Reconcile?)
  }

  /** The steps in which the controller itself runs. */
  predicate IsPageStep(step: Step) {
    || step.DoLockClick? || step.DoReleaseClick? || step.DoClearClick? || step.DoSwitchShowtime?
    || step.Resume? || step.Wake? || step.EndUnlock? || step.EndReleaseAll?
  }

  function Touch(snaps: seq<Snapshot>, s: Showtime): (r: seq<Snapshot>)
    ensures |r| == |snaps|
    ensures forall i | 0 <= i < |snaps| ::
      r[i] == if snaps[i].showtime == s then snaps[i].(touched := true) else snaps[i]
  {
    seq(|snaps|, i requires 0 <= i < |snaps| =>
      if snaps[i].showtime == s then snaps[i].(touched := true) else snaps[i])
  }

  /** The server gives up one lock, or fails to. */
  function Drop(w: World, ref: SeatRef, released: bool): World {
    if released then w.(held := w.held - {ref}, leaked := w.leaked - {ref}, snaps := Touch(w.snaps, ref.showtime))
    else if ref in w.held then w.(leaked := w.leaked + {ref})
    else w
  }

  ghost function Apply(w: World, step: Step): World
    requires Enabled(w, step)
  {
    var p := w.page;
    match step
    case DoLockClick(ref, limit) => w.(page := LockClick(p, ref, limit))
    case DoReleaseClick(ref) => w.(page := ReleaseClick(p, ref))
    case DoClearClick => w.(page := ClearClick(p))
    case DoSwitchShowtime(next, release) => w.(page := SwitchShowtime(p, next, release))
    case ApplyLock(id, verdict, took) =>
      var ref := p.net[id].target.ref;
      var w1 := w.(page := SetStatus(p, id, Applied(verdict)));
      if took then w1.(held := w.held + {ref}, snaps := Touch(w.snaps, ref.showtime)) else w1
    case ApplyUnlock(id, released) =>
      var w1 := w.(page := SetStatus(p, id, Applied(if released then Granted else Refused)));
      Drop(w1, p.net[id].target.ref, released)
    case StartSweep(id) =>
      w.(page := SetStatus(p, id, Releasing(HeldOf(w, p.net[id].target.showtime))))
    case SweepSeat(id, seat, released) =>
      var w1 := w.(page := SetStatus(p, id, Releasing(p.net[id].status.todo - {seat})));
      Drop(w1, SeatRef(p.net[id].target.showtime, seat), released)
    case FinishSweep(id) =>
      w.(page := SetStatus(p, id, Applied(Granted)), leaked := w.leaked + Uncovered(w, id))
    case Answer(id) =>
      w.(page := MarkResponse(SetStatus(p, id, Answered(p.net[id].status.verdict)), ShowtimeOf(p.net[id].target)))
    case FailLocally(id) => w.(page := SetStatus(p, id, Answered(Refused)))
    case Resume(ref) =>
      var verdict := p.net[p.locks[ref].phase.request].status.verdict;
      w.(page := ResumeLock(p, ref, verdict),
         leaked := if verdict.Unclear? && IsSelected(p, ref) && ref in w.held then w.leaked + {ref} else w.leaked)
    case Wake(ref) => w.(page := WakeLock(p, ref))
    case EndUnlock(ref) => w.(page := SettleUnlock(p, ref))
    case EndReleaseAll(s) => w.(page := SettleReleaseAll(p, s))
    case RequestSnapshot(s) =>
      w.(page := p.(sequence := p.sequence + 1), snaps := w.snaps + [Snapshot(s, p.sequence + 1, false, None)])
    case ReadSnapshot(i, value) => w.(snaps := w.snaps[i := w.snaps[i].(value := Some(value))])
    case Reconcile(i) =>
      w.(page := p.(selected := w.snaps[i].value.value),
         leaked := set r <- w.leaked | r.showtime != w.snaps[i].showtime)
  }

  function SelectedRefs(p: Page): set<SeatRef> {
    if p.showtime.None? then {} else set k <- p.selected :: SeatRef(p.showtime.value, k)
  }

  /**
   What a page finds when it mounts: a selection it may have kept from an earlier
   visit, whose locks are still held, locks it knows nothing about, and snapshots
   cached by an earlier visit.
   */
  ghost predicate Init(w: World) {
    && w.page.locks == map[] && w.page.unlocks == map[] && w.page.releaseAlls == map[]
    && w.page.generation == map[] && w.page.lastResponse == map[] && w.page.net == map[]
    && w.page.mountSeq <= w.page.sequence
    && SelectedRefs(w.page) <= w.held
    && w.leaked == w.held - SelectedRefs(w.page)
    && forall i | 0 <= i < |w.snaps| :: w.snaps[i].seq_ < w.page.mountSeq
  }

  /** The page moves from v to w by these steps, every click within the page's guards. */
  ghost predicate Run(v: World, steps: seq<Step>, w: World)
    decreases |steps|
  {
    if steps == [] then v == w
    else
      && Enabled(v, steps[0]) && PageGuard(v.page, steps[0])
      && Run(Apply(v, steps[0]), steps[1..], w)
  }
}
