/**
 What every step of the seat lock protocol keeps, and what follows for a page
 with nothing in flight.

 The invariant is stated seat by seat on a small abstraction (Local), so that a
 step has to be examined only for the seats whose abstraction it changes.
 */
module SeatLockInvariant {
  import opened SeatLockPage
  import opened SeatLockWorld

  datatype LockView = NoLock | Parked | Racing | Asking(current: bool, verdict: Option<Verdict>)
  datatype UnlockView = NoUnlock | UnlockSent | UnlockDone
  datatype SweepView = NoSweep | SweepAhead | SweepPast

  /** Everything the protocol knows about one seat. */
  datatype Local = Local(
    selected: bool, held: bool, leaked: bool,
    lock: LockView, unlock: UnlockView, sweep: SweepView)

  function VerdictIn(net: map<nat, Request>, id: nat): Option<Verdict> {
    if id in net && net[id].status.Applied? then Some(net[id].status.verdict)
    else if id in net && net[id].status.Answered? then Some(net[id].status.verdict)
    else None
  }

  function LockViewOf(p: Page, ref: SeatRef): LockView {
    if ref !in p.locks then NoLock
    else
      match p.locks[ref].phase
      case Blocked(_) => Parked
      case AwaitUnlock(_) => Parked
      case AwaitReleaseAll(_) => Racing
      case Requesting(g, id) => Asking(g == Generation(p, ref.showtime), VerdictIn(p.net, id))
  }

  function UnlockViewOf(p: Page, ref: SeatRef): UnlockView {
    if ref !in p.unlocks then NoUnlock
    else if p.unlocks[ref] in p.net && p.net[p.unlocks[ref]].status.Sent? then UnlockSent
    else UnlockDone
  }

  function SweepViewOf(p: Page, ref: SeatRef): SweepView {
    if ref.showtime !in p.releaseAlls then NoSweep
    else if p.releaseAlls[ref.showtime] !in p.net then SweepPast
    else
      match p.net[p.releaseAlls[ref.showtime]].status
      case Sent => SweepAhead
      case Releasing(todo) => if ref.seat in todo then SweepAhead else SweepPast
      case _ => SweepPast
  }

  function PageLocal(p: Page, ref: SeatRef, held: bool, leaked: bool): Local {
    Local(IsSelected(p, ref), held, leaked, LockViewOf(p, ref), UnlockViewOf(p, ref), SweepViewOf(p, ref))
  }

  function LocalOf(w: World, ref: SeatRef): Local {
    PageLocal(w.page, ref, ref in w.held, ref in w.leaked)
  }

  /** The invariant of one seat. */
  predicate LocalOk(l: Local) {
    && (l.leaked ==> l.held)
    // A selected seat whose lock is not being worked on is locked on the server.
    && (l.selected && l.lock.NoLock? ==> l.held && !l.leaked && l.unlock.NoUnlock? && l.sweep.NoSweep?)
    && (l.lock.Asking? || l.lock.Racing? ==> l.unlock.NoUnlock?)
    && (l.lock.Asking? && l.lock.current ==> l.sweep.NoSweep?)
    && (l.lock.Asking? && l.lock.current && l.lock.verdict == Some(Granted) ==> l.held && !l.leaked)
    && (l.lock.Asking? && (l.lock.verdict == None || l.lock.verdict == Some(Refused)) ==> (l.held ==> l.leaked))
    // Every lock on the server is accounted for.
    && (l.held && !l.leaked ==>
          || l.unlock.UnlockSent?
          || l.sweep.SweepAhead?
          || (l.selected && l.lock.NoLock?)
          || (l.lock.Asking? && (l.lock.verdict == Some(Granted) || l.lock.verdict == Some(Unclear)))
          || l.lock.Racing?)
  }

  /** A request in flight belongs to the pending operation that sent it. */
  ghost predicate RequestOk(p: Page, i: nat) {
    i in p.net ==>
      && i < p.nextId
      && (p.net[i].status.Releasing? ==> p.net[i].target.UnlockAll?)
      && match p.net[i].target
         case LockSeat(ref) => ref in p.locks && p.locks[ref].phase.Requesting? && p.locks[ref].phase.request == i
         case UnlockSeat(ref) => ref in p.unlocks && p.unlocks[ref] == i
         case UnlockAll(s) => s in p.releaseAlls && p.releaseAlls[s] == i
  }

  ghost predicate UnlockOk(p: Page, r: SeatRef) {
    r in p.unlocks ==> p.unlocks[r] in p.net && p.net[p.unlocks[r]].target == UnlockSeat(r)
  }

  ghost predicate SweepOk(p: Page, s: Showtime) {
    s in p.releaseAlls ==> p.releaseAlls[s] in p.net && p.net[p.releaseAlls[s]].target == UnlockAll(s)
  }

  ghost predicate LockOk(p: Page, r: SeatRef) {
    r in p.locks ==>
      && p.locks[r].id < p.nextId && p.locks[r].id !in p.net
      && match p.locks[r].phase
         case Requesting(g, i) => i in p.net && p.net[i].target == LockSeat(r) && g <= Generation(p, r.showtime)
         case AwaitUnlock(i) => i < p.nextId
         case AwaitReleaseAll(i) => i < p.nextId
         case Blocked(on) => forall i <- on :: i < p.nextId
  }

  /** An operation waits for requests, or for lock operations older than itself. */
  ghost predicate WaitOk(p: Page, r: SeatRef, q: SeatRef) {
    r in p.locks && q in p.locks ==>
      && (r != q ==> p.locks[r].id != p.locks[q].id)
      && match p.locks[r].phase
         case Requesting(_, _) => true
         case AwaitUnlock(i) => i != p.locks[q].id
         case AwaitReleaseAll(i) => i != p.locks[q].id
         case Blocked(on) => p.locks[q].id in on ==> p.locks[q].id < p.locks[r].id
  }

  ghost predicate Shape(p: Page) {
    && (forall i: nat :: RequestOk(p, i))
    && (forall r: SeatRef :: UnlockOk(p, r))
    && (forall s: Showtime :: SweepOk(p, s))
    && (forall r: SeatRef :: LockOk(p, r))
    && (forall r: SeatRef, q: SeatRef :: WaitOk(p, r, q))
  }

  ghost predicate Numbered(p: Page) {
    && p.mountSeq <= p.sequence
    && (forall s <- p.lastResponse :: p.mountSeq <= p.lastResponse[s] <= p.sequence)
  }

  ghost predicate AllOk(w: World) {
    forall ref: SeatRef :: LocalOk(LocalOf(w, ref))
  }

  /** The server took effect for this showtime and the page has not recorded the answer. */
  ghost predicate Unrecorded(p: Page, s: Showtime) {
    exists i <- p.net :: ShowtimeOf(p.net[i].target) == s && (p.net[i].status.Applied? || p.net[i].status.Releasing?)
  }

  ghost predicate Outdated(p: Page, q: Snapshot) {
    || q.seq_ < p.mountSeq
    || Unrecorded(p, q.showtime)
    || (q.showtime in p.lastResponse && q.seq_ < p.lastResponse[q.showtime])
  }

  ghost predicate SnapOk(w: World, q: Snapshot) {
    && q.seq_ <= w.page.sequence
    && (q.touched ==> Outdated(w.page, q))
    && (!q.touched && q.value.Some? && w.page.mountSeq <= q.seq_ ==> q.value.value == HeldOf(w, q.showtime))
  }

  ghost predicate SnapsOk(w: World) {
    forall i | 0 <= i < |w.snaps| :: SnapOk(w, w.snaps[i])
  }

  ghost predicate Inv(w: World) {
    Shape(w.page) && Numbered(w.page) && AllOk(w) && SnapsOk(w)
  }
}
