/** Every stretch of the controller keeps the bookkeeping of requests and promises. */
module SeatLockShape {
  import opened SeatLockPage
  import opened SeatLockInvariant

  /** A phase the operation of this seat may be suspended in. */
  ghost predicate PhaseOk(p: Page, ref: SeatRef, phase: Phase)
    requires ref in p.locks
  {
    match phase
    case Requesting(_, _) => false
    case AwaitUnlock(i) => i in p.net && i < p.nextId
    case AwaitReleaseAll(i) => i in p.net && i < p.nextId
    case Blocked(on) => forall i <- on :: i < p.nextId && forall q <- p.locks :: p.locks[q].id == i ==> i < p.locks[ref].id
  }

  lemma StatusKeepsShape(p: Page, id: nat, status: Status)
    requires Shape(p)
    requires id in p.net && (status.Releasing? ==> p.net[id].target.UnlockAll?)
    ensures Shape(SetStatus(p, id, status))
  {
    var p' := SetStatus(p, id, status);
    forall i: nat ensures RequestOk(p', i) { assert RequestOk(p, i); }
    forall r: SeatRef ensures UnlockOk(p', r) { assert UnlockOk(p, r); }
    forall s: Showtime ensures SweepOk(p', s) { assert SweepOk(p, s); }
    forall r: SeatRef ensures LockOk(p', r) { assert LockOk(p, r); }
    forall r: SeatRef, q: SeatRef ensures WaitOk(p', r, q) { 
      assert WaitOk(p, r, q) && LockOk(p, q) && LockOk(p, r); }
  }

  lemma UnlockKeepsShape(p: Page, ref: SeatRef)
    requires Shape(p)
    ensures Shape(StartUnlock(p, ref))
  {
    var p' := StartUnlock(p, ref);
    assert RequestOk(p, p.nextId);
    forall i: nat ensures RequestOk(p', i) { assert RequestOk(p, i); }
    forall r: SeatRef ensures UnlockOk(p', r) { assert UnlockOk(p, r); }
    forall s: Showtime ensures SweepOk(p', s) { assert SweepOk(p, s); }
    forall r: SeatRef ensures LockOk(p', r) { assert LockOk(p, r); }
    forall r: SeatRef, q: SeatRef ensures WaitOk(p', r, q) { 
      assert WaitOk(p, r, q) && LockOk(p, q) && LockOk(p, r); }
  }

  lemma ReleaseAllKeepsShape(p: Page, s0: Showtime)
    requires Shape(p)
    ensures Shape(StartReleaseAll(p, s0))
  {
    var p' := StartReleaseAll(p, s0);
    assert RequestOk(p, p.nextId);
    forall i: nat ensures RequestOk(p', i) { assert RequestOk(p, i); }
    forall r: SeatRef ensures UnlockOk(p', r) { assert UnlockOk(p, r); }
    forall s: Showtime ensures SweepOk(p', s) { assert SweepOk(p, s); }
    forall r: SeatRef ensures LockOk(p', r) { assert LockOk(p, r); }
    forall r: SeatRef, q: SeatRef ensures WaitOk(p', r, q) { 
      assert WaitOk(p, r, q) && LockOk(p, q) && LockOk(p, r); }
  }

  lemma SettleUnlockKeepsShape(p: Page, ref: SeatRef)
    requires Shape(p)
    requires ref in p.unlocks
    ensures Shape(SettleUnlock(p, ref))
  {
    var p' := SettleUnlock(p, ref);
    assert UnlockOk(p, ref);
    forall i: nat ensures RequestOk(p', i) { assert RequestOk(p, i); }
    forall r: SeatRef ensures UnlockOk(p', r) { assert UnlockOk(p, r); }
    forall s: Showtime ensures SweepOk(p', s) { assert SweepOk(p, s); }
    forall r: SeatRef ensures LockOk(p', r) { assert LockOk(p, r); }
    forall r: SeatRef, q: SeatRef ensures WaitOk(p', r, q) { 
      assert WaitOk(p, r, q) && LockOk(p, q) && LockOk(p, r); }
  }

  lemma SettleReleaseAllKeepsShape(p: Page, s0: Showtime)
    requires Shape(p)
    requires s0 in p.releaseAlls
    ensures Shape(SettleReleaseAll(p, s0))
  {
    var p' := SettleReleaseAll(p, s0);
    assert SweepOk(p, s0);
    forall i: nat ensures RequestOk(p', i) { assert RequestOk(p, i); }
    forall r: SeatRef ensures UnlockOk(p', r) { assert UnlockOk(p, r); }
    forall s: Showtime ensures SweepOk(p', s) { assert SweepOk(p, s); }
    forall r: SeatRef ensures LockOk(p', r) { assert LockOk(p, r); }
    forall r: SeatRef, q: SeatRef ensures WaitOk(p', r, q) { 
      assert WaitOk(p, r, q) && LockOk(p, q) && LockOk(p, r); }
  }

  lemma AskKeepsShape(p: Page, ref: SeatRef)
    requires Shape(p)
    requires ref in p.locks && !p.locks[ref].phase.Requesting?
    ensures Shape(SendLock(p, ref))
  {
    var p' := SendLock(p, ref);
    assert RequestOk(p, p.nextId);
    forall i: nat ensures RequestOk(p', i) { assert RequestOk(p, i); }
    forall r: SeatRef ensures UnlockOk(p', r) { assert UnlockOk(p, r); }
    forall s: Showtime ensures SweepOk(p', s) { assert SweepOk(p, s); }
    forall r: SeatRef ensures LockOk(p', r) { assert LockOk(p, r); }
    forall r: SeatRef, q: SeatRef ensures WaitOk(p', r, q) { 
      assert WaitOk(p, r, q) && LockOk(p, q) && LockOk(p, r); }
  }

  lemma ParkKeepsShape(p: Page, ref: SeatRef, phase: Phase)
    requires Shape(p)
    requires ref in p.locks && !p.locks[ref].phase.Requesting? && PhaseOk(p, ref, phase)
    ensures Shape(SetPhase(p, ref, phase))
  {
    var p' := SetPhase(p, ref, phase);
    forall i: nat ensures RequestOk(p', i) { assert RequestOk(p, i); }
    forall r: SeatRef ensures UnlockOk(p', r) { assert UnlockOk(p, r); }
    forall s: Showtime ensures SweepOk(p', s) { assert SweepOk(p, s); }
    forall r: SeatRef ensures LockOk(p', r) { assert LockOk(p, r); }
    forall r: SeatRef, q: SeatRef ensures WaitOk(p', r, q) { 
      assert WaitOk(p, r, q) && LockOk(p, q) && LockOk(p, r); }
  }

  lemma FinishKeepsShape(p: Page, ref: SeatRef)
    requires Shape(p)
    requires ref in p.locks && !p.locks[ref].phase.Requesting?
    ensures Shape(Finish(p, ref))
  {
    var p' := Finish(p, ref);
    forall i: nat ensures RequestOk(p', i) { assert RequestOk(p, i); }
    forall r: SeatRef ensures UnlockOk(p', r) { assert UnlockOk(p, r); }
    forall s: Showtime ensures SweepOk(p', s) { assert SweepOk(p, s); }
    forall r: SeatRef ensures LockOk(p', r) { assert LockOk(p, r); }
    forall r: SeatRef, q: SeatRef ensures WaitOk(p', r, q) { 
      assert WaitOk(p, r, q) && LockOk(p, q) && LockOk(p, r); }
  }

  lemma AnsweredKeepsShape(p: Page, ref: SeatRef, phase: Phase)
    requires Shape(p)
    requires ref in p.locks && p.locks[ref].phase.Requesting? && PhaseOk(p, ref, phase)
    ensures Shape(SetPhase(p.(net := p.net - {p.locks[ref].phase.request}), ref, phase))
  {
    var p' := SetPhase(p.(net := p.net - {p.locks[ref].phase.request}), ref, phase);
    assert LockOk(p, ref);
    forall i: nat ensures RequestOk(p', i) { assert RequestOk(p, i); }
    forall r: SeatRef ensures UnlockOk(p', r) { assert UnlockOk(p, r); }
    forall s: Showtime ensures SweepOk(p', s) { assert SweepOk(p, s); }
    forall r: SeatRef ensures LockOk(p', r) { assert LockOk(p, r); }
    forall r: SeatRef, q: SeatRef ensures WaitOk(p', r, q) { 
      assert WaitOk(p, r, q) && LockOk(p, q) && LockOk(p, r); }
  }

  /** The bookkeeping does not depend on the selection, the sequence numbers or the recorded responses. */
  lemma SameShape(p: Page, q: Page)
    requires Shape(p)
    requires q.net == p.net && q.locks == p.locks && q.unlocks == p.unlocks && q.releaseAlls == p.releaseAlls
    requires q.nextId == p.nextId && q.generation == p.generation
    ensures Shape(q)
  {
    forall i: nat ensures RequestOk(q, i) { assert RequestOk(p, i); }
    forall r: SeatRef ensures UnlockOk(q, r) { assert UnlockOk(p, r); }
    forall s: Showtime ensures SweepOk(q, s) { assert SweepOk(p, s); }
    forall r: SeatRef ensures LockOk(q, r) { assert LockOk(p, r); }
    forall r: SeatRef, t: SeatRef ensures WaitOk(q, r, t) { assert WaitOk(p, r, t); }
  }

  lemma NewLockKeepsShape(p: Page, ref: SeatRef)
    requires Shape(p) && ref !in p.locks
    ensures Shape(StartLock(p, ref))
  {
    var p' := StartLock(p, ref);
    assert RequestOk(p, p.nextId);
    forall i: nat ensures RequestOk(p', i) { assert RequestOk(p, i); }
    forall r: SeatRef ensures UnlockOk(p', r) { assert UnlockOk(p, r); }
    forall s: Showtime ensures SweepOk(p', s) { assert SweepOk(p, s); }
    forall r: SeatRef ensures LockOk(p', r) { assert LockOk(p, r); }
    forall r: SeatRef, q: SeatRef ensures WaitOk(p', r, q) { assert WaitOk(p, r, q) && LockOk(p, q) && LockOk(p, r); }
  }

  lemma ContinueKeepsShape(p: Page, ref: SeatRef, extra: set<nat>)
    requires Shape(p) && ref in p.locks && !p.locks[ref].phase.Requesting?
    requires PhaseOk(p, ref, Blocked(extra))
    ensures Shape(ContinueLock(p, ref, extra))
  {
    var blockers := Blockers(p, ref, extra);
    if !IsSelected(p, ref) {
      FinishKeepsShape(p, ref);
    } else if blockers != {} {
      forall i <- blockers
        ensures i < p.nextId && forall q <- p.locks :: p.locks[q].id == i ==> i < p.locks[ref].id
      {
        assert UnlockOk(p, ref) && SweepOk(p, ref.showtime) && RequestOk(p, i);
        forall q <- p.locks ensures p.locks[q].id == i ==> i < p.locks[ref].id { assert LockOk(p, q); }
      }
      ParkKeepsShape(p, ref, Blocked(blockers));
    } else {
      AskKeepsShape(p, ref);
    }
  }

  lemma OwnUnlockKeepsShape(p: Page, ref: SeatRef)
    requires Shape(p) && ref in p.locks && !p.locks[ref].phase.Requesting?
    ensures Shape(AwaitOwnUnlock(p, ref))
  {
    var p1 := StartUnlock(p, ref);
    UnlockKeepsShape(p, ref);
    assert UnlockOk(p1, ref) && RequestOk(p1, p1.unlocks[ref]);
    ParkKeepsShape(p1, ref, AwaitUnlock(p1.unlocks[ref]));
  }

  lemma ReleasesAreOlder(p: Page, ref: SeatRef, limit: Option<nat>)
    requires Shape(p)
    ensures forall i <- ExtraReleases(p, ref, limit) :: i < p.nextId
  {
    forall r <- p.unlocks ensures p.unlocks[r] < p.nextId { assert UnlockOk(p, r) && RequestOk(p, p.unlocks[r]); }
    forall r <- p.locks ensures p.locks[r].id < p.nextId { assert LockOk(p, r); }
  }

  lemma LockClickKeepsShape(p: Page, ref: SeatRef, limit: Option<nat>)
    requires Shape(p)
    ensures Shape(LockClick(p, ref, limit))
  {
    SameShape(p, AddSeat(p, ref.seat));
    if ref !in p.locks {
      var extra := ExtraReleases(AddSeat(p, ref.seat), ref, limit);
      NewLockKeepsShape(p, ref);
      ReleasesAreOlder(AddSeat(p, ref.seat), ref, limit);
      assert PhaseOk(StartLock(p, ref), ref, Blocked(extra));
      ContinueKeepsShape(StartLock(p, ref), ref, extra);
    }
  }

  lemma WakeKeepsShape(p: Page, ref: SeatRef)
    requires Shape(p) && ref in p.locks && !p.locks[ref].phase.Requesting?
    ensures Shape(WakeLock(p, ref))
  {
    if p.locks[ref].phase.AwaitReleaseAll? {
      OwnUnlockKeepsShape(p, ref);
    } else {
      ContinueKeepsShape(p, ref, {});
    }
  }

  /** The operation ends with the answer it got. */
  lemma EndAnsweredKeepsShape(p: Page, ref: SeatRef)
    requires Shape(p) && ref in p.locks && p.locks[ref].phase.Requesting?
    ensures Shape(Finish(p.(net := p.net - {p.locks[ref].phase.request}), ref))
  {
    var p1 := p.(net := p.net - {p.locks[ref].phase.request});
    AnsweredKeepsShape(p, ref, Blocked({}));
    FinishKeepsShape(SetPhase(p1, ref, Blocked({})), ref);
    assert Finish(SetPhase(p1, ref, Blocked({})), ref) == Finish(p1, ref);
  }

  /** Sending an unlock and dropping an answered lock request commute. */
  lemma UnlockCommutes(p: Page, ref: SeatRef, request: nat)
    requires ref in p.locks && request < p.nextId
    ensures AwaitOwnUnlock(p.(net := p.net - {request}), ref)
         == (var q := StartUnlock(p, ref);
             SetPhase(q.(net := q.net - {request}), ref, AwaitUnlock(q.unlocks[ref])))
  {
    var q := StartUnlock(p, ref);
    StartUnlockCommutes(p, ref, request);
    assert q.locks == p.locks;
  }

  lemma StartUnlockCommutes(p: Page, ref: SeatRef, request: nat)
    requires request < p.nextId
    ensures StartUnlock(p.(net := p.net - {request}), ref)
         == (var q := StartUnlock(p, ref); q.(net := q.net - {request}))
  {
    var q := StartUnlock(p, ref);
    assert StartUnlock(p.(net := p.net - {request}), ref).net == q.net - {request};
  }

  /** The operation answers its lock with a release of the same seat. */
  lemma UnlockAnsweredKeepsShape(p: Page, ref: SeatRef)
    requires Shape(p) && ref in p.locks && p.locks[ref].phase.Requesting?
    ensures Shape(AwaitOwnUnlock(p.(net := p.net - {p.locks[ref].phase.request}), ref))
  {
    var request := p.locks[ref].phase.request;
    var q := StartUnlock(p, ref);
    UnlockKeepsShape(p, ref);
    assert UnlockOk(q, ref) && RequestOk(q, q.unlocks[ref]);
    AnsweredKeepsShape(q, ref, AwaitUnlock(q.unlocks[ref]));
    assert LockOk(p, ref) && RequestOk(p, request);
    UnlockCommutes(p, ref, request);
  }

  lemma ResumeKeepsShape(p: Page, ref: SeatRef, verdict: Verdict)
    requires Shape(p) && ref in p.locks && p.locks[ref].phase.Requesting?
    ensures Shape(ResumeLock(p, ref, verdict))
  {
    var p1 := p.(net := p.net - {p.locks[ref].phase.request});
    EndAnsweredKeepsShape(p, ref);
    UnlockAnsweredKeepsShape(p, ref);
    if ref.showtime in p.releaseAlls {
      assert SweepOk(p, ref.showtime) && RequestOk(p, p.releaseAlls[ref.showtime]);
      AnsweredKeepsShape(p, ref, AwaitReleaseAll(p.releaseAlls[ref.showtime]));
    }
    if !verdict.Granted? && IsSelected(p, ref) {
      SameShape(Finish(p1, ref), ResumeLock(p, ref, verdict));
    }
  }

  lemma ReleaseClickKeepsShape(p: Page, ref: SeatRef)
    requires Shape(p)
    ensures Shape(ReleaseClick(p, ref))
  {
    var p1 := if p.showtime == Some(ref.showtime) then RemoveSeat(p, ref.seat) else p;
    SameShape(p, p1);
    UnlockKeepsShape(p1, ref);
  }

  lemma ClearClickKeepsShape(p: Page)
    requires Shape(p) && p.showtime.Some?
    ensures Shape(ClearClick(p))
  {
    SameShape(p, p.(selected := {}));
    ReleaseAllKeepsShape(p.(selected := {}), p.showtime.value);
  }

  lemma SwitchKeepsShape(p: Page, next: Option<Showtime>, release: bool)
    requires Shape(p)
    ensures Shape(SwitchShowtime(p, next, release))
  {
    if release && p.showtime.Some? { ReleaseAllKeepsShape(p, p.showtime.value); }
    var p1 := if release && p.showtime.Some? then StartReleaseAll(p, p.showtime.value) else p;
    SameShape(p1, p1.(showtime := next, selected := {}));
  }
}
