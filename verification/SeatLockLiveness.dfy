/** Sums of a weight over a finite set. */
module Sums {

  ghost function Sum<K(!new)>(s: set<K>, f: K -> nat): nat
    decreases |s|
  {
    if s == {} then 0 else var x :| x in s; f(x) + Sum(s - {x}, f)
  }

  lemma {:induction false} SumRemove<K(!new)>(s: set<K>, f: K -> nat, x: K)
    requires x in s
    ensures Sum(s, f) == f(x) + Sum(s - {x}, f)
    decreases |s|
  {
    var y :| y in s && Sum(s, f) == f(y) + Sum(s - {y}, f);
    if y != x {
      SumRemove(s - {y}, f, x);
      SumRemove(s - {x}, f, y);
      assert s - {x} - {y} == s - {y} - {x};
    }
  }

  lemma {:induction false} SumMono<K(!new)>(s: set<K>, f: K -> nat, g: K -> nat)
    requires forall x <- s :: f(x) <= g(x)
    ensures Sum(s, f) <= Sum(s, g)
    decreases |s|
  {
    if s != {} {
      var x :| x in s;
      SumRemove(s, f, x);
      SumRemove(s, g, x);
      SumMono(s - {x}, f, g);
    }
  }
}

/**
 Once the user stops, every operation finishes: each step of the server and the
 network makes a measure smaller, and while anything is pending some step is
 possible.
 */
module SeatLockLiveness {
  import opened SeatLockPage
  import opened SeatLockWorld
  import opened SeatLockInvariant
  import opened SeatLockShape
  import opened SeatLockSafety
  import opened Sums

  function StatusWeight(status: Status): nat {
    match status
    case Sent => 4
    case Releasing(_) => 3
    case Applied(_) => 2
    case Answered(_) => 1
  }

  /** An unlock or release-all is pending that the operation does not wait for yet. */
  predicate Surprised(p: Page, ref: SeatRef, on: set<nat>) {
    || (ref in p.unlocks && p.unlocks[ref] !in on)
    || (ref.showtime in p.releaseAlls && p.releaseAlls[ref.showtime] !in on)
  }

  /**
   How much an operation may still do without the user: a lock request that is
   still wanted and saw no release-all is its last one; any other may cost one
   unlock and one more lock request.
   */
  function Rank(p: Page, ref: SeatRef): nat {
    if ref !in p.locks then 0
    else
      match p.locks[ref].phase
      case Requesting(g, _) => if IsSelected(p, ref) && g == Generation(p, ref.showtime) then 1 else 14
      case Blocked(on) => if Surprised(p, ref, on) then 7 else 6
      case AwaitUnlock(_) => 8
      case AwaitReleaseAll(_) => 13
  }

  function RequestWeight(net: map<nat, Request>, i: nat): nat {
    if i in net then StatusWeight(net[i].status) else 0
  }

  ghost function NetWeight(net: map<nat, Request>): nat {
    Sum(net.Keys, i => RequestWeight(net, i))
  }

  ghost function LockWeight(p: Page): nat {
    Sum(p.locks.Keys, r => Rank(p, r))
  }

  ghost function Work(p: Page): nat {
    NetWeight(p.net) + LockWeight(p)
  }

  function Todo(net: map<nat, Request>, i: nat): nat {
    if i in net && net[i].status.Releasing? then |net[i].status.todo| else 0
  }

  /** Seats that running release-alls have not visited yet. */
  ghost function Unvisited(net: map<nat, Request>): nat {
    Sum(net.Keys, i => Todo(net, i))
  }

  // ----- how the sums change -----

  lemma NetRemove(net: map<nat, Request>, i: nat)
    requires i in net
    ensures NetWeight(net) == StatusWeight(net[i].status) + NetWeight(net - {i})
  {
    var f := j => RequestWeight(net, j);
    var g := j => RequestWeight(net - {i}, j);
    SumRemove(net.Keys, f, i);
    assert (net - {i}).Keys == net.Keys - {i};
    SumMono(net.Keys - {i}, f, g);
    SumMono(net.Keys - {i}, g, f);
  }

  lemma NetSet(net: map<nat, Request>, i: nat, r: Request)
    ensures NetWeight(net[i := r]) == StatusWeight(r.status) + NetWeight(net - {i})
  {
    NetRemove(net[i := r], i);
    assert net[i := r] - {i} == net - {i};
  }

  /** Only the operation of seat ref may have gained rank. */
  lemma LockChange(p: Page, p': Page, ref: SeatRef)
    requires p'.locks.Keys - {ref} == p.locks.Keys - {ref}
    requires forall q <- p.locks :: q != ref ==> Rank(p', q) <= Rank(p, q)
    ensures LockWeight(p') + Rank(p, ref) <= LockWeight(p) + Rank(p', ref)
  {
    var f := r => Rank(p, r);
    var g := r => Rank(p', r);
    var rest := p.locks.Keys - {ref};
    if ref in p.locks { SumRemove(p.locks.Keys, f, ref); } else { assert rest == p.locks.Keys; }
    if ref in p'.locks { SumRemove(p'.locks.Keys, g, ref); } else { assert rest == p'.locks.Keys; }
    SumMono(rest, g, f);
  }

  // ----- every step of the server and the network makes progress -----

  lemma StatusWork(p: Page, id: nat, status: Status)
    requires id in p.net && StatusWeight(status) < StatusWeight(p.net[id].status)
    ensures Work(SetStatus(p, id, status)) < Work(p)
  {
    var r := p.net[id].(status := status);
    NetRemove(p.net, id);
    NetSet(p.net, id, r);
    SameLocks(p, SetStatus(p, id, status));
  }

  lemma SameLocks(p: Page, p': Page)
    requires p'.locks.Keys == p.locks.Keys
    requires forall q <- p.locks :: Rank(p', q) <= Rank(p, q)
    ensures LockWeight(p') <= LockWeight(p)
  {
    SumMono(p.locks.Keys, r => Rank(p', r), r => Rank(p, r));
  }

  lemma SettleUnlockWork(p: Page, ref: SeatRef)
    requires ref in p.unlocks && p.unlocks[ref] in p.net
    ensures Work(SettleUnlock(p, ref)) < Work(p)
  {
    NetRemove(p.net, p.unlocks[ref]);
    SameLocks(p, SettleUnlock(p, ref));
  }

  lemma SettleReleaseAllWork(p: Page, s: Showtime)
    requires s in p.releaseAlls && p.releaseAlls[s] in p.net
    ensures Work(SettleReleaseAll(p, s)) < Work(p)
  {
    NetRemove(p.net, p.releaseAlls[s]);
    SameLocks(p, SettleReleaseAll(p, s));
  }

  lemma SendWork(p: Page, target: Target)
    requires p.nextId !in p.net
    ensures NetWeight(SendRequest(p, target).net) == NetWeight(p.net) + 4
  {
    NetSet(p.net, p.nextId, Request(target, Sent));
    assert p.net - {p.nextId} == p.net;
  }

  lemma FinishWork(p: Page, ref: SeatRef)
    ensures Work(Finish(p, ref)) + Rank(p, ref) <= Work(p)
  {
    LockChange(p, Finish(p, ref), ref);
  }

  lemma OwnUnlockWork(p: Page, ref: SeatRef)
    requires ref in p.locks && p.nextId !in p.net
    ensures Work(AwaitOwnUnlock(p, ref)) + Rank(p, ref) <= Work(p) + 12
  {
    SendWork(p, UnlockSeat(ref));
    LockChange(p, AwaitOwnUnlock(p, ref), ref);
  }

  lemma ParkWork(p: Page, ref: SeatRef, phase: Phase)
    requires ref in p.locks
    ensures Work(SetPhase(p, ref, phase)) + Rank(p, ref) <= Work(p) + Rank(SetPhase(p, ref, phase), ref)
  {
    LockChange(p, SetPhase(p, ref, phase), ref);
  }

  lemma SendLockWork(p: Page, ref: SeatRef)
    requires ref in p.locks && p.nextId !in p.net && IsSelected(p, ref)
    ensures Work(SendLock(p, ref)) + Rank(p, ref) <= Work(p) + 5
  {
    SendWork(p, LockSeat(ref));
    LockChange(p, SendLock(p, ref), ref);
  }

  /** The loop head costs at most one rank-6 wait, or a last lock request. */
  lemma ContinueWork(p: Page, ref: SeatRef)
    requires ref in p.locks && p.nextId !in p.net
    ensures Work(ContinueLock(p, ref, {})) + Rank(p, ref) <= Work(p) + (if Blockers(p, ref, {}) == {} then 5 else 6)
  {
    FinishWork(p, ref);
    ParkWork(p, ref, Blocked(Blockers(p, ref, {})));
    if IsSelected(p, ref) { SendLockWork(p, ref); }
  }

  lemma WakeWork(p: Page, ref: SeatRef)
    requires ref in p.locks && p.nextId !in p.net && Wakeable(p, p.locks[ref].phase)
    ensures Work(WakeLock(p, ref)) < Work(p)
  {
    OwnUnlockWork(p, ref);
    ContinueWork(p, ref);
  }

  /** The operation of a seat ends, perhaps dropping the seat. */
  lemma EndWork(p: Page, p': Page, ref: SeatRef)
    requires p' == Finish(p, ref) || (p.showtime == Some(ref.showtime) && p' == Finish(RemoveSeat(p, ref.seat), ref))
    ensures Work(p') <= Work(p)
  {
    LockChange(p, p', ref);
  }

  lemma ResumeWork(p: Page, ref: SeatRef, verdict: Verdict)
    requires ref in p.locks && p.locks[ref].phase.Requesting? && p.nextId !in p.net
    requires p.locks[ref].phase.request in p.net
    ensures Work(ResumeLock(p, ref, verdict)) < Work(p)
  {
    var phase := p.locks[ref].phase;
    var p1 := p.(net := p.net - {phase.request});
    NetRemove(p.net, phase.request);
    SameLocks(p, p1);
    var wanted := IsSelected(p, ref);
    if verdict.Granted? && !(wanted && Generation(p, ref.showtime) == phase.generation) {
      if ref.showtime in p.releaseAlls {
        ParkWork(p1, ref, AwaitReleaseAll(p.releaseAlls[ref.showtime]));
      } else {
        OwnUnlockWork(p1, ref);
      }
    } else if verdict.Unclear? && !wanted {
      OwnUnlockWork(p1, ref);
    } else {
      EndWork(p1, ResumeLock(p, ref, verdict), ref);
    }
  }

  lemma SweepSeatWork(p: Page, id: nat, todo: set<SeatKey>)
    requires id in p.net && p.net[id].status.Releasing?
    ensures Work(SetStatus(p, id, Releasing(todo))) <= Work(p)
  {
    var p' := SetStatus(p, id, Releasing(todo));
    NetRemove(p.net, id);
    NetSet(p.net, id, p'.net[id]);
    SameLocks(p, p');
  }

  lemma SweepSeatVisits(p: Page, id: nat, seat: SeatKey)
    requires id in p.net && p.net[id].status.Releasing? && seat in p.net[id].status.todo
    ensures Unvisited(SetStatus(p, id, Releasing(p.net[id].status.todo - {seat})).net) < Unvisited(p.net)
  {
    var net' := SetStatus(p, id, Releasing(p.net[id].status.todo - {seat})).net;
    var f := i => Todo(p.net, i);
    var g := i => Todo(net', i);
    assert net'.Keys == p.net.Keys;
    SumRemove(p.net.Keys, f, id);
    SumRemove(p.net.Keys, g, id);
    SumMono(p.net.Keys - {id}, g, f);
  }

  /** The measure of what is left to do, compared lexicographically. */
  lemma SystemStepProgresses(w: World, step: Step)
    requires Shape(w.page) && Enabled(w, step) && IsSystemStep(step)
    ensures var w' := Apply(w, step);
      || Work(w'.page) < Work(w.page)
      || (Work(w'.page) <= Work(w.page) && Unvisited(w'.page.net) < Unvisited(w.page.net))
  {
    var p := w.page;
    assert RequestOk(p, p.nextId);
    match step
    case ApplyLock(id, verdict, _) => StatusWork(p, id, Applied(verdict));
    case ApplyUnlock(id, released) => StatusWork(p, id, Applied(if released then Granted else Refused));
    case StartSweep(id) => StatusWork(p, id, Releasing(HeldOf(w, p.net[id].target.showtime)));
    case SweepSeat(id, seat, _) =>
      SweepSeatWork(p, id, p.net[id].status.todo - {seat});
      SweepSeatVisits(p, id, seat);
    case FinishSweep(id) => StatusWork(p, id, Applied(Granted));
    case Answer(id) =>
      StatusWork(p, id, Answered(p.net[id].status.verdict));
      SameLocks(SetStatus(p, id, Answered(p.net[id].status.verdict)), Apply(w, step).page);
    case FailLocally(id) => StatusWork(p, id, Answered(Refused));
    case Resume(ref) => ResumeWork(p, ref, p.net[p.locks[ref].phase.request].status.verdict);
    case Wake(ref) => WakeWork(p, ref);
    case EndUnlock(ref) => SettleUnlockWork(p, ref);
    case EndReleaseAll(s) => SettleReleaseAllWork(p, s);
  }

  // ----- and some step is possible while anything is pending -----

  /** The server takes no new lock, and does what it is asked to release. */
  predicate TakesNoLock(step: Step) {
    || step.FailLocally? || (step.ApplyUnlock? && step.released) || step.FinishSweep? || step.Answer?
    || step.Resume? || step.Wake? || step.EndUnlock? || step.EndReleaseAll?
  }

  lemma RequestCanMove(w: World, i: nat)
    requires Shape(w.page) && i in w.page.net
    ensures exists step :: TakesNoLock(step) && Enabled(w, step)
  {
    var r := w.page.net[i];
    assert RequestOk(w.page, i);
    var step := match r.status
      case Sent =>
        (match r.target
         case LockSeat(_) => FailLocally(i)
         case UnlockSeat(_) => ApplyUnlock(i, true)
         case UnlockAll(_) => FinishSweep(i))
      case Releasing(_) => FinishSweep(i)
      case Applied(_) => Answer(i)
      case Answered(_) =>
        (match r.target
         case LockSeat(ref) => Resume(ref)
         case UnlockSeat(ref) => EndUnlock(ref)
         case UnlockAll(s) => EndReleaseAll(s));
    assert TakesNoLock(step) && Enabled(w, step);
  }

  function Awaited(phase: Phase): set<nat> {
    match phase
    case Blocked(on) => on
    case AwaitUnlock(i) => {i}
    case AwaitReleaseAll(i) => {i}
    case Requesting(_, _) => {}
  }

  ghost predicate Idle(p: Page) {
    p.locks.Keys == {} && p.unlocks.Keys == {} && p.releaseAlls.Keys == {}
  }

  /** The oldest pending lock operation. */
  lemma {:induction false} Oldest(p: Page, s: set<SeatRef>) returns (ref: SeatRef)
    requires s != {} && s <= p.locks.Keys
    ensures ref in s && forall q <- s :: p.locks[ref].id <= p.locks[q].id
    decreases |s|
  {
    ref :| ref in s;
    if s != {ref} {
      assert s == (s - {ref}) + {ref};
      var other := Oldest(p, s - {ref});
      if p.locks[other].id < p.locks[ref].id { ref := other; }
    }
  }

  lemma PendingCanMove(w: World)
    requires Shape(w.page) && !Idle(w.page)
    ensures exists step :: IsSystemStep(step) && TakesNoLock(step) && Enabled(w, step)
  {
    var p := w.page;
    if i: nat :| i in p.net {
      RequestCanMove(w, i);
    } else {
      forall r: SeatRef ensures r !in p.unlocks { assert UnlockOk(p, r); }
      forall s: Showtime ensures s !in p.releaseAlls { assert SweepOk(p, s); }
      var ref := Oldest(p, p.locks.Keys);
      assert LockOk(p, ref);
      forall i <- Awaited(p.locks[ref].phase) ensures Settled(p, i) {
        forall q <- p.locks ensures p.locks[q].id != i { assert WaitOk(p, ref, q); }
      }
      assert TakesNoLock(Wake(ref)) && Enabled(w, Wake(ref));
    }
  }

  predicate IsSnapshotStep(step: Step) {
    step.RequestSnapshot? || step.ReadSnapshot? || step.Reconcile?
  }

  predicate IsClick(step: Step) {
    step.DoLockClick? || step.DoReleaseClick? || step.DoClearClick? || step.DoSwitchShowtime?
  }

  /** Reading the locks back leaves everything still to do as it was. */
  lemma SnapshotStepsAreFree(w: World, step: Step)
    requires Inv(w) && Enabled(w, step) && IsSnapshotStep(step)
    ensures Work(Apply(w, step).page) <= Work(w.page) && Apply(w, step).page.net == w.page.net
  {
    var p, p' := w.page, Apply(w, step).page;
    forall q <- p.locks ensures Rank(p', q) <= Rank(p, q) {
      assert step.Reconcile? ==> !HasPendingFor(p, w.snaps[step.index].showtime);
    }
    SameLocks(p, p');
  }

  /** The n-th transition of this sequence of worlds is an enabled step that is not a click. */
  ghost predicate GoesOn(run: nat -> World, steps: nat -> Step, n: nat) {
    !IsClick(steps(n)) && Enabled(run(n), steps(n)) && run(n + 1) == Apply(run(n), steps(n))
  }

  lemma GoingOnKeepsInv(run: nat -> World, steps: nat -> Step, n: nat)
    requires Inv(run(n)) && GoesOn(run, steps, n)
    ensures Inv(run(n + 1))
    ensures Work(run(n + 1).page) <= Work(run(n).page)
    ensures Work(run(n + 1).page) == Work(run(n).page) ==> Unvisited(run(n + 1).page.net) <= Unvisited(run(n).page.net)
    ensures !IsSnapshotStep(steps(n)) && Work(run(n + 1).page) == Work(run(n).page) ==>
              Unvisited(run(n + 1).page.net) < Unvisited(run(n).page.net)
  {
    StepKeepsInv(run(n), steps(n));
    if IsSnapshotStep(steps(n)) {
      SnapshotStepsAreFree(run(n), steps(n));
    } else {
      SystemStepProgresses(run(n), steps(n));
    }
  }

  lemma {:induction false} NeverRises(run: nat -> World, steps: nat -> Step, n: nat, m: nat)
    requires Inv(run(n)) && n <= m && forall k: nat :: n <= k < m ==> GoesOn(run, steps, k)
    ensures Inv(run(m))
    ensures Work(run(m).page) <= Work(run(n).page)
    ensures Work(run(m).page) == Work(run(n).page) ==> Unvisited(run(m).page.net) <= Unvisited(run(n).page.net)
    decreases m - n
  {
    if n < m {
      GoingOnKeepsInv(run, steps, n);
      NeverRises(run, steps, n + 1, m);
    }
  }

  /** From step n on only snapshots are requested, read and reconciled. */
  ghost predicate OnlySnapshotsFrom(steps: nat -> Step, n: nat) {
    forall m: nat :: n <= m ==> IsSnapshotStep(steps(m))
  }

  /** The server and the network alone cannot go on for ever. */
  lemma NoEndlessRun(run: nat -> World, steps: nat -> Step, n: nat)
    requires Inv(run(n))
    ensures exists m: nat :: n <= m && !(IsSystemStep(steps(m)) && GoesOn(run, steps, m))
  {
    if forall m: nat :: n <= m ==> GoesOn(run, steps, m) {
      OnlySnapshotsForEver(run, steps, n);
      var end: nat :| n <= end && OnlySnapshotsFrom(steps, end);
      assert IsSnapshotStep(steps(end));
    }
  }

  /**
   Without clicks the protocol comes to an end: an endless run has only finitely
   many steps other than requesting, reading and reconciling my-locks snapshots.
   */
  lemma {:induction false} OnlySnapshotsForEver(run: nat -> World, steps: nat -> Step, n: nat)
    requires Inv(run(n)) && forall m: nat :: n <= m ==> GoesOn(run, steps, m)
    ensures exists end: nat :: n <= end && OnlySnapshotsFrom(steps, end)
    decreases Work(run(n).page), Unvisited(run(n).page.net)
  {
    if m: nat :| n <= m && !IsSnapshotStep(steps(m)) {
      NeverRises(run, steps, n, m);
      GoingOnKeepsInv(run, steps, m);
      OnlySnapshotsForEver(run, steps, m + 1);
    } else {
      assert OnlySnapshotsFrom(steps, n);
    }
  }

  /**
   From every world the server and the network can bring the page to rest, and
   there the locks are the selection and what leaked.
   */
  lemma {:induction false} SystemReachesIdle(w: World) returns (steps: seq<Step>, w': World)
    requires Inv(w)
    ensures Run(w, steps, w') && (forall step <- steps :: IsSystemStep(step)) && Idle(w'.page)
    ensures forall s :: HeldOf(w', s) == SelectedOf(w'.page, s) + LeakedOf(w', s)
    decreases Work(w.page), Unvisited(w.page.net)
  {
    if Idle(w.page) {
      steps, w' := [], w;
      forall s ensures HeldOf(w', s) == SelectedOf(w'.page, s) + LeakedOf(w', s) { IdleShowtime(w, s); }
    } else {
      PendingCanMove(w);
      var step :| IsSystemStep(step) && Enabled(w, step);
      SystemStepProgresses(w, step);
      StepKeepsInv(w, step);
      var rest;
      rest, w' := SystemReachesIdle(Apply(w, step));
      steps := [step] + rest;
      assert steps[1..] == rest;
    }
  }
}
