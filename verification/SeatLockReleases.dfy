/**
 Which releases a lock waits for. A click beyond the user's limit, or without a
 limit, waits for the releases of other seats that are under way at the click;
 every click waits for a release of its own seat or of the whole showtime.
 */
module SeatLockReleases {
  import opened SeatLockPage
  import opened SeatLockWorld
  import opened SeatLockInvariant
  import opened SeatLockSafety

  /** Other seats of the showtime with an unlock in flight. */
  function UnlockedOthers(p: Page, ref: SeatRef): set<SeatRef> {
    set r <- p.unlocks.Keys | r != ref && r.showtime == ref.showtime
  }

  /** Other seats of the showtime with a lock operation although the user dropped them. */
  function DroppedOthers(p: Page, ref: SeatRef): set<SeatRef> {
    set r <- p.locks.Keys | r != ref && r.showtime == ref.showtime && !IsSelected(p, r)
  }

  /** With the new seat, the selection and the seats still being released do not fit the limit. */
  predicate Crowded(p: Page, ref: SeatRef, limit: Option<nat>) {
    limit.None? || |p.selected + {ref.seat}| + |UnlockedOthers(p, ref)| + |DroppedOthers(p, ref)| > limit.value
  }

  /** A promise the seat's lock has to wait for: a release of the seat, of the showtime, or of another seat in a crowd. */
  ghost predicate IsAwaited(p: Page, ref: SeatRef, limit: Option<nat>, promise: nat) {
    || (ref in p.unlocks && p.unlocks[ref] == promise)
    || (ref.showtime in p.releaseAlls && p.releaseAlls[ref.showtime] == promise)
    || (Crowded(p, ref, limit) && exists r <- UnlockedOthers(p, ref) :: p.unlocks[r] == promise)
    || (Crowded(p, ref, limit) && exists r <- DroppedOthers(p, ref) :: p.locks[r].id == promise)
  }

  // ----- counting -----

  /** Distinct keys with distinct values are as many as their values. */
  lemma {:induction false} ImageSize(s: set<SeatRef>, m: map<SeatRef, nat>)
    requires s <= m.Keys && forall r <- s, q <- s :: r != q ==> m[r] != m[q]
    ensures |set r <- s :: m[r]| == |s|
    decreases |s|
  {
    if s == {} {
      assert (set r <- s :: m[r]) == {};
    } else {
      var x :| x in s;
      ImageSize(s - {x}, m);
      assert (set r <- s :: m[r]) == (set r <- s - {x} :: m[r]) + {m[x]};
    }
  }

  function UnlockPromises(p: Page, ref: SeatRef): set<nat> {
    set r <- UnlockedOthers(p, ref) :: p.unlocks[r]
  }

  function LockPromises(p: Page, ref: SeatRef): set<nat> {
    set r <- DroppedOthers(p, ref) :: p.locks[r].id
  }

  lemma ReleasesAreBoth(p: Page, ref: SeatRef)
    ensures CollectReleases(p, ref) == UnlockPromises(p, ref) + LockPromises(p, ref)
  {
    assert (set r <- p.unlocks | r != ref && r.showtime == ref.showtime :: p.unlocks[r]) == UnlockPromises(p, ref);
    assert (set r <- p.locks | r != ref && r.showtime == ref.showtime && !IsSelected(p, r) :: p.locks[r].id)
        == LockPromises(p, ref);
  }

  lemma CountOfUnlocks(p: Page, ref: SeatRef)
    requires Shape(p)
    ensures |UnlockPromises(p, ref)| == |UnlockedOthers(p, ref)|
  {
    forall r <- UnlockedOthers(p, ref), q <- UnlockedOthers(p, ref) ensures r != q ==> p.unlocks[r] != p.unlocks[q] {
      assert UnlockOk(p, r) && UnlockOk(p, q);
    }
    ImageSize(UnlockedOthers(p, ref), p.unlocks);
  }

  lemma CountOfLocks(p: Page, ref: SeatRef)
    requires Shape(p)
    ensures |LockPromises(p, ref)| == |DroppedOthers(p, ref)|
  {
    var dropped := DroppedOthers(p, ref);
    var ids := map r <- dropped :: p.locks[r].id;
    forall r <- dropped, q <- dropped ensures r != q ==> ids[r] != ids[q] { assert WaitOk(p, r, q); }
    ImageSize(dropped, ids);
    assert (set r <- dropped :: ids[r]) == LockPromises(p, ref);
  }

  /** Every release is one promise, and they are counted like the seats. */
  lemma CountOfReleases(p: Page, ref: SeatRef)
    requires Shape(p)
    ensures |CollectReleases(p, ref)| == |UnlockedOthers(p, ref)| + |DroppedOthers(p, ref)|
  {
    CountOfUnlocks(p, ref);
    CountOfLocks(p, ref);
    ReleasesAreBoth(p, ref);
    forall r <- UnlockedOthers(p, ref), q <- DroppedOthers(p, ref) ensures p.unlocks[r] != p.locks[q].id {
      assert UnlockOk(p, r) && LockOk(p, q);
    }
    assert UnlockPromises(p, ref) !! LockPromises(p, ref);
  }

  /** The new seat itself is not among the others. */
  lemma SelectingKeepsReleases(p: Page, ref: SeatRef)
    ensures CollectReleases(AddSeat(p, ref.seat), ref) == CollectReleases(p, ref)
  {
    forall r | r != ref && r.showtime == ref.showtime ensures IsSelected(AddSeat(p, ref.seat), r) == IsSelected(p, r) {
      assert r.seat != ref.seat;
    }
  }

  lemma CrowdedExactly(p: Page, ref: SeatRef, limit: Option<nat>)
    requires Shape(p)
    ensures ExtraReleases(AddSeat(p, ref.seat), ref, limit) == if Crowded(p, ref, limit) then CollectReleases(p, ref) else {}
  {
    SelectingKeepsReleases(p, ref);
    CountOfReleases(p, ref);
  }

  lemma InReleases(p: Page, ref: SeatRef, promise: nat)
    ensures promise in CollectReleases(p, ref) <==>
            || (exists r <- UnlockedOthers(p, ref) :: p.unlocks[r] == promise)
            || (exists r <- DroppedOthers(p, ref) :: p.locks[r].id == promise)
  {
    ReleasesAreBoth(p, ref);
  }

  lemma InBlockers(p: Page, ref: SeatRef, extra: set<nat>, promise: nat)
    ensures promise in Blockers(StartLock(p, ref), ref, extra) <==>
            || promise in extra
            || (ref in p.unlocks && p.unlocks[ref] == promise)
            || (ref.showtime in p.releaseAlls && p.releaseAlls[ref.showtime] == promise)
  {
  }

  /** The click captures exactly the promises it has to wait for. */
  lemma AwaitedExactly(p: Page, ref: SeatRef, limit: Option<nat>, promise: nat)
    requires Shape(p) && ref !in p.locks
    ensures promise in Blockers(StartLock(p, ref), ref, ExtraReleases(AddSeat(p, ref.seat), ref, limit))
            <==> IsAwaited(p, ref, limit, promise)
  {
    var extra := ExtraReleases(AddSeat(p, ref.seat), ref, limit);
    CrowdedExactly(p, ref, limit);
    InReleases(p, ref, promise);
    InBlockers(p, ref, extra, promise);
  }

  // ----- the click -----

  ghost predicate HasLockRequest(p: Page, ref: SeatRef) {
    exists i <- p.net :: p.net[i].target == LockSeat(ref)
  }

  lemma NoRequestYet(p: Page, ref: SeatRef)
    requires Shape(p) && (ref in p.locks ==> !p.locks[ref].phase.Requesting?)
    ensures !HasLockRequest(p, ref)
  {
    forall i <- p.net ensures p.net[i].target != LockSeat(ref) { assert RequestOk(p, i); }
  }

  lemma NoReleases(p: Page, ref: SeatRef)
    ensures CollectReleases(p, ref) == {} <==> UnlockedOthers(p, ref) == {} && DroppedOthers(p, ref) == {}
  {
    ReleasesAreBoth(p, ref);
    if r :| r in UnlockedOthers(p, ref) { assert p.unlocks[r] in UnlockPromises(p, ref); }
    if r :| r in DroppedOthers(p, ref) { assert p.locks[r].id in LockPromises(p, ref); }
  }

  /** The head of the loop sends exactly when the seat is selected and nothing blocks it. */
  lemma ContinueSendsExactly(p: Page, ref: SeatRef, extra: set<nat>)
    requires ref in p.locks && !HasLockRequest(p, ref)
    ensures HasLockRequest(ContinueLock(p, ref, extra), ref) <==> IsSelected(p, ref) && Blockers(p, ref, extra) == {}
  {
    if IsSelected(p, ref) && Blockers(p, ref, extra) == {} {
      assert SendLock(p, ref).net[p.nextId].target == LockSeat(ref);
    } else {
      assert ContinueLock(p, ref, extra).net == p.net;
    }
  }

  /** The click itself sends the lock exactly when it selects the seat and no release stands in the way. */
  lemma ClickSendsExactly(p: Page, ref: SeatRef, limit: Option<nat>)
    requires Shape(p) && ref !in p.locks
    ensures HasLockRequest(LockClick(p, ref, limit), ref) <==>
            && p.showtime == Some(ref.showtime)
            && ref !in p.unlocks && ref.showtime !in p.releaseAlls
            && (Crowded(p, ref, limit) ==> UnlockedOthers(p, ref) == {} && DroppedOthers(p, ref) == {})
  {
    NoRequestYet(p, ref);
    CrowdedExactly(p, ref, limit);
    NoReleases(p, ref);
    ContinueSendsExactly(StartLock(p, ref), ref, ExtraReleases(AddSeat(p, ref.seat), ref, limit));
  }

  // ----- and what follows -----

  /** Any steps at all, within the guards of the page or not. */
  ghost predicate Steps(v: World, steps: seq<Step>, w: World)
    decreases |steps|
  {
    if steps == [] then v == w else Enabled(v, steps[0]) && Steps(Apply(v, steps[0]), steps[1..], w)
  }

  /** The seat's operation is suspended on this promise. */
  predicate WaitsFor(p: Page, ref: SeatRef, promise: nat) {
    ref in p.locks && p.locks[ref].phase.Blocked? && promise in p.locks[ref].phase.on
  }

  lemma ClickWaits(p: Page, ref: SeatRef, limit: Option<nat>, promise: nat)
    requires Shape(p) && ref !in p.locks && p.showtime == Some(ref.showtime) && IsAwaited(p, ref, limit, promise)
    ensures WaitsFor(LockClick(p, ref, limit), ref, promise)
  {
    AwaitedExactly(p, ref, limit, promise);
  }

  /** Promises are numbered anew, and a settled one stays settled. */
  ghost predicate Later(p: Page, q: Page, promise: nat) {
    promise < p.nextId <= q.nextId && (Settled(p, promise) ==> Settled(q, promise))
  }

  predicate SameOperation(p: Page, q: Page, ref: SeatRef) {
    ref in p.locks ==> ref in q.locks && q.locks[ref] == p.locks[ref]
  }

  lemma UnlockIsLater(p: Page, r: SeatRef, ref: SeatRef, promise: nat)
    requires promise < p.nextId
    ensures Later(p, StartUnlock(p, r), promise) && SameOperation(p, StartUnlock(p, r), ref)
  {
  }

  lemma ReleaseAllIsLater(p: Page, s: Showtime, ref: SeatRef, promise: nat)
    requires promise < p.nextId
    ensures Later(p, StartReleaseAll(p, s), promise) && SameOperation(p, StartReleaseAll(p, s), ref)
  {
  }

  lemma PhaseIsLater(p: Page, r: SeatRef, phase: Phase, ref: SeatRef, promise: nat)
    requires promise < p.nextId && r in p.locks
    ensures Later(p, SetPhase(p, r, phase), promise) && (r != ref ==> SameOperation(p, SetPhase(p, r, phase), ref))
  {
    forall q <- p.locks ensures q in SetPhase(p, r, phase).locks && SetPhase(p, r, phase).locks[q].id == p.locks[q].id {}
  }

  lemma FinishIsLater(p: Page, r: SeatRef, ref: SeatRef, promise: nat)
    requires promise < p.nextId
    ensures Later(p, Finish(p, r), promise) && (r != ref ==> SameOperation(p, Finish(p, r), ref))
  {
  }

  lemma ContinueIsLater(p: Page, r: SeatRef, extra: set<nat>, ref: SeatRef, promise: nat)
    requires promise < p.nextId && r in p.locks
    ensures var q := ContinueLock(p, r, extra); Later(p, q, promise) && (r != ref ==> SameOperation(p, q, ref))
  {
    FinishIsLater(p, r, ref, promise);
    PhaseIsLater(p, r, Blocked(Blockers(p, r, extra)), ref, promise);
    PhaseIsLater(SendRequest(p, LockSeat(r)), r, Requesting(Generation(p, r.showtime), p.nextId), ref, promise);
  }

  lemma OwnUnlockIsLater(p: Page, r: SeatRef, ref: SeatRef, promise: nat)
    requires promise < p.nextId && r in p.locks
    ensures var q := AwaitOwnUnlock(p, r); Later(p, q, promise) && (r != ref ==> SameOperation(p, q, ref))
  {
    var p1 := StartUnlock(p, r);
    UnlockIsLater(p, r, ref, promise);
    PhaseIsLater(p1, r, AwaitUnlock(p1.unlocks[r]), ref, promise);
  }

  lemma ClickIsLater(p: Page, r: SeatRef, limit: Option<nat>, ref: SeatRef, promise: nat)
    requires promise < p.nextId
    ensures var q := LockClick(p, r, limit); Later(p, q, promise) && SameOperation(p, q, ref)
  {
    if r !in p.locks {
      var p1 := StartLock(p, r);
      assert Later(p, p1, promise) && SameOperation(p, p1, ref);
      ContinueIsLater(p1, r, ExtraReleases(AddSeat(p, r.seat), r, limit), ref, promise);
    }
  }

  lemma SameOperationsLater(p: Page, q: Page, ref: SeatRef, promise: nat)
    requires promise < p.nextId == q.nextId
    requires q.locks == p.locks && q.unlocks == p.unlocks && q.releaseAlls == p.releaseAlls
    ensures Later(p, q, promise) && SameOperation(p, q, ref)
  {
  }

  lemma SelectionIsLater(p: Page, next: Option<Showtime>, ref: SeatRef, promise: nat)
    requires promise < p.nextId
    ensures var q := p.(showtime := next, selected := {}); Later(p, q, promise) && SameOperation(p, q, ref)
  {
    SameOperationsLater(p, p.(showtime := next, selected := {}), ref, promise);
  }

  lemma AnsweredIsLater(p: Page, r: SeatRef, ref: SeatRef, promise: nat)
    requires promise < p.nextId && r in p.locks
    ensures Later(p, Finish(p, r), promise) && Later(p, AwaitOwnUnlock(p, r), promise)
    ensures r.showtime in p.releaseAlls ==> Later(p, SetPhase(p, r, AwaitReleaseAll(p.releaseAlls[r.showtime])), promise)
    ensures r != ref ==> SameOperation(p, Finish(p, r), ref) && SameOperation(p, AwaitOwnUnlock(p, r), ref)
    ensures r != ref && r.showtime in p.releaseAlls ==>
              SameOperation(p, SetPhase(p, r, AwaitReleaseAll(p.releaseAlls[r.showtime])), ref)
  {
    FinishIsLater(p, r, ref, promise);
    OwnUnlockIsLater(p, r, ref, promise);
    if r.showtime in p.releaseAlls { PhaseIsLater(p, r, AwaitReleaseAll(p.releaseAlls[r.showtime]), ref, promise); }
  }

  lemma LaterAgain(p: Page, p1: Page, q: Page, promise: nat, ref: SeatRef)
    requires Later(p, p1, promise) && Later(p1, q, promise) && SameOperation(p, p1, ref)
    ensures Later(p, q, promise) && (SameOperation(p1, q, ref) ==> SameOperation(p, q, ref))
  {
  }

  lemma ResumeIsLater(p: Page, r: SeatRef, verdict: Verdict, ref: SeatRef, promise: nat)
    requires promise < p.nextId && r in p.locks && p.locks[r].phase.Requesting?
    ensures var q := ResumeLock(p, r, verdict); Later(p, q, promise) && (r != ref ==> SameOperation(p, q, ref))
  {
    var p1 := p.(net := p.net - {p.locks[r].phase.request});
    var p2 := if !verdict.Granted? && IsSelected(p, r) then RemoveSeat(p1, r.seat) else p1;
    SameOperationsLater(p, p2, ref, promise);
    AnsweredIsLater(p2, r, ref, promise);
    LaterAgain(p, p2, ResumeLock(p, r, verdict), promise, ref);
  }

  lemma ReleaseClickIsLater(p: Page, r: SeatRef, ref: SeatRef, promise: nat)
    requires promise < p.nextId
    ensures Later(p, ReleaseClick(p, r), promise) && SameOperation(p, ReleaseClick(p, r), ref)
  {
    var p1 := if p.showtime == Some(r.showtime) then RemoveSeat(p, r.seat) else p;
    SameOperationsLater(p, p1, ref, promise);
    UnlockIsLater(p1, r, ref, promise);
  }

  lemma ClearClickIsLater(p: Page, ref: SeatRef, promise: nat)
    requires promise < p.nextId && p.showtime.Some?
    ensures Later(p, ClearClick(p), promise) && SameOperation(p, ClearClick(p), ref)
  {
    SameOperationsLater(p, p.(selected := {}), ref, promise);
    ReleaseAllIsLater(p.(selected := {}), p.showtime.value, ref, promise);
  }

  lemma SwitchIsLater(p: Page, next: Option<Showtime>, release: bool, ref: SeatRef, promise: nat)
    requires promise < p.nextId
    ensures var q := SwitchShowtime(p, next, release); Later(p, q, promise) && SameOperation(p, q, ref)
  {
    var p1 := if release && p.showtime.Some? then StartReleaseAll(p, p.showtime.value) else p;
    if release && p.showtime.Some? { ReleaseAllIsLater(p, p.showtime.value, ref, promise); }
    if p.showtime != next {
      SelectionIsLater(p1, next, ref, promise);
      LaterAgain(p, p1, p1.(showtime := next, selected := {}), promise, ref);
    }
  }

  lemma ClicksAreLater(w: World, step: Step, ref: SeatRef, promise: nat)
    requires Enabled(w, step) && promise < w.page.nextId
    requires step.DoLockClick? || step.DoReleaseClick? || step.DoClearClick? || step.DoSwitchShowtime?
    ensures Later(w.page, Apply(w, step).page, promise) && SameOperation(w.page, Apply(w, step).page, ref)
  {
    match step
    case DoLockClick(r, limit) => ClickIsLater(w.page, r, limit, ref, promise);
    case DoReleaseClick(r) => ReleaseClickIsLater(w.page, r, ref, promise);
    case DoClearClick => ClearClickIsLater(w.page, ref, promise);
    case DoSwitchShowtime(next, release) => SwitchIsLater(w.page, next, release, ref, promise);
  }

  lemma ContinuationsAreLater(w: World, step: Step, ref: SeatRef, promise: nat)
    requires Enabled(w, step) && promise < w.page.nextId
    requires step.Resume? || step.Wake? || step.EndUnlock? || step.EndReleaseAll?
    ensures Later(w.page, Apply(w, step).page, promise)
    ensures step != Resume(ref) && step != Wake(ref) ==> SameOperation(w.page, Apply(w, step).page, ref)
  {
    var p := w.page;
    if step.Resume? {
      ResumeIsLater(p, step.ref, p.net[p.locks[step.ref].phase.request].status.verdict, ref, promise);
    } else if step.Wake? {
      OwnUnlockIsLater(p, step.ref, ref, promise);
      ContinueIsLater(p, step.ref, {}, ref, promise);
    }
  }

  lemma StepIsLater(w: World, step: Step, ref: SeatRef, promise: nat)
    requires Enabled(w, step) && promise < w.page.nextId
    ensures Later(w.page, Apply(w, step).page, promise)
    ensures step != Resume(ref) && step != Wake(ref) ==> SameOperation(w.page, Apply(w, step).page, ref)
  {
    if step.Resume? || step.Wake? || step.EndUnlock? || step.EndReleaseAll? {
      ContinuationsAreLater(w, step, ref, promise);
    } else if IsPageStep(step) {
      ClicksAreLater(w, step, ref, promise);
    } else {
      SameOperationsLater(w.page, Apply(w, step).page, ref, promise);
    }
  }

  lemma {:induction false} WaitsUntilSettled(v: World, steps: seq<Step>, w: World, ref: SeatRef, promise: nat)
    requires Shape(v.page) && Steps(v, steps, w) && promise < v.page.nextId
    requires Settled(v.page, promise) || WaitsFor(v.page, ref, promise)
    ensures Shape(w.page) && (Settled(w.page, promise) || WaitsFor(w.page, ref, promise))
    decreases |steps|
  {
    if steps != [] {
      KeepsShape(v, steps[0]);
      StepIsLater(v, steps[0], ref, promise);
      WaitsUntilSettled(Apply(v, steps[0]), steps[1..], w, ref, promise);
    }
  }

  /**
   No lock of the clicked seat is sent, over any run, before every release it has to
   wait for is settled.
   */
  lemma LockWaitsForReleases(v: World, ref: SeatRef, limit: Option<nat>, promise: nat, steps: seq<Step>, w: World)
    requires Inv(v) && ref !in v.page.locks && v.page.showtime == Some(ref.showtime)
    requires IsAwaited(v.page, ref, limit, promise)
    requires Steps(Apply(v, DoLockClick(ref, limit)), steps, w)
    ensures HasLockRequest(w.page, ref) ==> Settled(w.page, promise)
  {
    var v1 := Apply(v, DoLockClick(ref, limit));
    KeepsShape(v, DoLockClick(ref, limit));
    ClickWaits(v.page, ref, limit, promise);
    assert LockOk(v1.page, ref);
    WaitsUntilSettled(v1, steps, w, ref, promise);
    if !Settled(w.page, promise) { NoRequestYet(w.page, ref); }
  }

  /** Once they are settled the lock is sent, unless the seat was dropped or is being released again. */
  lemma WakeSendsExactly(w: World, ref: SeatRef)
    requires Shape(w.page) && Enabled(w, Wake(ref)) && w.page.locks[ref].phase.Blocked?
    ensures HasLockRequest(Apply(w, Wake(ref)).page, ref) <==>
            IsSelected(w.page, ref) && ref !in w.page.unlocks && ref.showtime !in w.page.releaseAlls
  {
    NoRequestYet(w.page, ref);
    if Blockers(w.page, ref, {}) == {} && IsSelected(w.page, ref) {
      assert SendLock(w.page, ref).net[w.page.nextId].target == LockSeat(ref);
    }
  }
}
