/**
 The seat page's view of its own seat operations: the selection kept by the
 booking store, the operations the seat lock controller has in flight, and the
 HTTP requests it has sent.

 Every function below is one synchronous stretch of the controller, from one
 `await` to the next. The class in SeatLockController.dfy runs the same stretches
 on mutable fields and is proved equal to these functions.
 */
module SeatLockPage {

  type Showtime = string
  type SeatKey = string

  datatype Option<+T> = None | Some(value: T)

  /** The pair the source joins into one operation key. */
  datatype SeatRef = SeatRef(showtime: Showtime, seat: SeatKey)

  /** What the server said: success, a definite refusal (4xx), or no definite answer (5xx, network). */
  datatype Verdict = Granted | Refused | Unclear

  datatype Target = LockSeat(ref: SeatRef) | UnlockSeat(ref: SeatRef) | UnlockAll(showtime: Showtime)

  /**
   A request travels from Sent to Applied (the server is done with it) to Answered
   (the page recorded the response). A release-all is not atomic on the server: it
   reads the user's seats once and then releases them one by one.
   */
  datatype Status =
    | Sent
    | Releasing(todo: set<SeatKey>)
    | Applied(verdict: Verdict)
    | Answered(verdict: Verdict)

  datatype Request = Request(target: Target, status: Status)

  /** Where a pending lock operation is suspended. */
  datatype Phase =
    | Blocked(on: set<nat>)
    | Requesting(generation: nat, request: nat)
    | AwaitReleaseAll(promise: nat)
    | AwaitUnlock(promise: nat)

  datatype LockOp = LockOp(id: nat, phase: Phase)

  /**
   showtime, selected: the booking store. locks, unlocks, releaseAlls: pending
   operations with the identity of their promise. generation: how many
   release-alls each showtime has seen. lastResponse, sequence, mountSeq: the
   sequence numbers that order my-locks snapshots and responses.
   */
  datatype Page = Page(
    showtime: Option<Showtime>,
    selected: set<SeatKey>,
    locks: map<SeatRef, LockOp>,
    unlocks: map<SeatRef, nat>,
    releaseAlls: map<Showtime, nat>,
    generation: map<Showtime, nat>,
    lastResponse: map<Showtime, nat>,
    net: map<nat, Request>,
    nextId: nat,
    sequence: nat,
    mountSeq: nat)

  function ShowtimeOf(target: Target): Showtime {
    match target
    case LockSeat(ref) => ref.showtime
    case UnlockSeat(ref) => ref.showtime
    case UnlockAll(s) => s
  }

  predicate IsSelected(p: Page, ref: SeatRef) {
    p.showtime == Some(ref.showtime) && ref.seat in p.selected
  }

  function Generation(p: Page, s: Showtime): nat {
    if s in p.generation then p.generation[s] else 0
  }

  /** No pending operation still owns this promise. */
  ghost predicate Settled(p: Page, id: nat) {
    && (forall r <- p.locks :: p.locks[r].id != id)
    && (forall r <- p.unlocks :: p.unlocks[r] != id)
    && (forall s <- p.releaseAlls :: p.releaseAlls[s] != id)
  }

  // ----- starting requests -----

  function SendRequest(p: Page, target: Target): Page {
    p.(net := p.net[p.nextId := Request(target, Sent)], nextId := p.nextId + 1)
  }

  /** Joins an unlock of the seat that is already in flight, or sends a new one. */
  function StartUnlock(p: Page, ref: SeatRef): Page {
    if ref in p.unlocks then p
    else SendRequest(p, UnlockSeat(ref)).(unlocks := p.unlocks[ref := p.nextId])
  }

  function StartReleaseAll(p: Page, s: Showtime): Page {
    var p1 := p.(generation := p.generation[s := Generation(p, s) + 1]);
    if s in p.releaseAlls then p1
    else SendRequest(p1, UnlockAll(s)).(releaseAlls := p.releaseAlls[s := p.nextId])
  }

  // ----- the lock operation -----

  /** Unlocks of other seats, and locks of other seats that the user dropped meanwhile. */
  function CollectReleases(p: Page, except: SeatRef): set<nat> {
    (set r <- p.unlocks | r != except && r.showtime == except.showtime :: p.unlocks[r])
    + (set r <- p.locks | r != except && r.showtime == except.showtime && !IsSelected(p, r) :: p.locks[r].id)
  }

  /** What must settle before a lock of this seat may be sent. */
  function Blockers(p: Page, ref: SeatRef, extra: set<nat>): set<nat> {
    extra
    + (if ref in p.unlocks then {p.unlocks[ref]} else {})
    + (if ref.showtime in p.releaseAlls then {p.releaseAlls[ref.showtime]} else {})
  }

  function SetPhase(p: Page, ref: SeatRef, phase: Phase): Page
    requires ref in p.locks
  {
    p.(locks := p.locks[ref := p.locks[ref].(phase := phase)])
  }

  function Finish(p: Page, ref: SeatRef): Page {
    p.(locks := p.locks - {ref})
  }

  function SendLock(p: Page, ref: SeatRef): Page
    requires ref in p.locks
  {
    SetPhase(SendRequest(p, LockSeat(ref)), ref, Requesting(Generation(p, ref.showtime), p.nextId))
  }

  /** The head of the operation's loop: stop, wait, or send the lock request. */
  function ContinueLock(p: Page, ref: SeatRef, extra: set<nat>): Page
    requires ref in p.locks
  {
    var blockers := Blockers(p, ref, extra);
    if !IsSelected(p, ref) then Finish(p, ref)
    else if blockers != {} then SetPhase(p, ref, Blocked(blockers))
    else SendLock(p, ref)
  }

  function AddSeat(p: Page, seat: SeatKey): Page {
    p.(selected := p.selected + {seat})
  }

  function RemoveSeat(p: Page, seat: SeatKey): Page {
    p.(selected := p.selected - {seat})
  }

  /** The releases a new lock waits for: none while the selection still fits the limit. */
  function ExtraReleases(p: Page, ref: SeatRef, limit: Option<nat>): set<nat> {
    var releases := CollectReleases(p, ref);
    if limit.None? || |p.selected| + |releases| > limit.value then releases else {}
  }

  /** The moment a click starts a new lock operation for its seat. */
  function StartLock(p: Page, ref: SeatRef): Page {
    p.(selected := p.selected + {ref.seat},
       locks := p.locks[ref := LockOp(p.nextId, Blocked({}))], nextId := p.nextId + 1)
  }

  function LockClick(p: Page, ref: SeatRef, limit: Option<nat>): Page {
    if ref in p.locks then AddSeat(p, ref.seat)
    else ContinueLock(StartLock(p, ref), ref, ExtraReleases(AddSeat(p, ref.seat), ref, limit))
  }

  function AwaitOwnUnlock(p: Page, ref: SeatRef): Page
    requires ref in p.locks
  {
    var p1 := StartUnlock(p, ref);
    SetPhase(p1, ref, AwaitUnlock(p1.unlocks[ref]))
  }

  /** The operation continues with the answer to its lock request. */
  function ResumeLock(p: Page, ref: SeatRef, verdict: Verdict): Page
    requires ref in p.locks && p.locks[ref].phase.Requesting?
  {
    var phase := p.locks[ref].phase;
    var p1 := p.(net := p.net - {phase.request});
    var wanted := IsSelected(p, ref);
    if verdict.Granted? then
      if wanted && Generation(p, ref.showtime) == phase.generation then Finish(p1, ref)
      else if ref.showtime in p.releaseAlls then
        SetPhase(p1, ref, AwaitReleaseAll(p.releaseAlls[ref.showtime]))
      else AwaitOwnUnlock(p1, ref)
    else
      var p2 := if wanted then RemoveSeat(p1, ref.seat) else p1;
      if wanted || verdict.Refused? then Finish(p2, ref) else AwaitOwnUnlock(p2, ref)
  }

  /** The operation continues after the promises it waited for have settled. */
  function WakeLock(p: Page, ref: SeatRef): Page
    requires ref in p.locks && !p.locks[ref].phase.Requesting?
  {
    if p.locks[ref].phase.AwaitReleaseAll? then AwaitOwnUnlock(p, ref)
    else ContinueLock(p, ref, {})
  }

  function SettleUnlock(p: Page, ref: SeatRef): Page
    requires ref in p.unlocks
  {
    p.(unlocks := p.unlocks - {ref}, net := p.net - {p.unlocks[ref]})
  }

  function SettleReleaseAll(p: Page, s: Showtime): Page
    requires s in p.releaseAlls
  {
    p.(releaseAlls := p.releaseAlls - {s}, net := p.net - {p.releaseAlls[s]})
  }

  // ----- the user -----

  function ReleaseClick(p: Page, ref: SeatRef): Page {
    var p1 := if p.showtime == Some(ref.showtime) then RemoveSeat(p, ref.seat) else p;
    if ref in p.locks then p1 else StartUnlock(p1, ref)
  }

  /** releaseAll together with the clear of the selection its caller owes. */
  function ClearClick(p: Page): Page
    requires p.showtime.Some?
  {
    StartReleaseAll(p.(selected := {}), p.showtime.value)
  }

  function SwitchShowtime(p: Page, next: Option<Showtime>, release: bool): Page {
    var p1 := if release && p.showtime.Some? then StartReleaseAll(p, p.showtime.value) else p;
    if p.showtime == next then p1 else p1.(showtime := next, selected := {})
  }

  // ----- responses and snapshots -----

  predicate HasPendingFor(p: Page, s: Showtime) {
    || s in p.releaseAlls
    || (exists r <- p.locks :: r.showtime == s)
    || (exists r <- p.unlocks :: r.showtime == s)
  }

  predicate IsSnapshotCurrent(p: Page, requestSeq: nat, s: Showtime) {
    && !HasPendingFor(p, s)
    && requestSeq >= (if s in p.lastResponse then p.lastResponse[s] else p.mountSeq)
  }

  function SetStatus(p: Page, id: nat, status: Status): Page
    requires id in p.net
  {
    p.(net := p.net[id := p.net[id].(status := status)])
  }

  /** The server's response arrived: it takes the next sequence number. */
  function MarkResponse(p: Page, s: Showtime): Page {
    p.(lastResponse := p.lastResponse[s := p.sequence + 1], sequence := p.sequence + 1)
  }
}
