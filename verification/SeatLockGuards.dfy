/**
 The controller does not check what its callers must. A lock click on a seat that
 is selected and locked already, one that adds a seat of another showtime to the
 selection, and a change of showtime that leaves locks behind or releases a
 selection that stays, break the match between locks and selection. The page's
 guards are exactly what keeps it, in every reachable world.
 */
module SeatLockGuards {
  import opened SeatLockPage
  import opened SeatLockWorld
  import opened SeatLockInvariant
  import opened SeatLockShape
  import opened SeatLockViews
  import opened SeatLockLocal
  import opened SeatLockSafety
  import opened SeatLockLiveness

  /** Nothing but the server and the network acts. */
  ghost predicate SystemRun(v: World, steps: seq<Step>, w: World)
    decreases |steps|
  {
    if steps == [] then v == w
    else IsSystemStep(steps[0]) && Enabled(v, steps[0]) && SystemRun(Apply(v, steps[0]), steps[1..], w)
  }

  ghost predicate Matches(w: World) {
    forall s: Showtime :: HeldOf(w, s) == SelectedOf(w.page, s) + LeakedOf(w, s)
      && SelectedOf(w.page, s) !! LeakedOf(w, s)
  }

  lemma {:induction false} SystemRunMatches(v: World, steps: seq<Step>, w: World)
    requires Inv(v) && SystemRun(v, steps, w) && Idle(w.page)
    ensures Matches(w)
    decreases |steps|
  {
    if steps == [] {
      forall s ensures HeldOf(w, s) == SelectedOf(w.page, s) + LeakedOf(w, s)
        && SelectedOf(w.page, s) !! LeakedOf(w, s)
      {
        IdleShowtime(w, s);
      }
    } else {
      StepKeepsInv(v, steps[0]);
      SystemRunMatches(Apply(v, steps[0]), steps[1..], w);
    }
  }

  lemma SystemRunCons(v: World, step: Step, steps: seq<Step>, w: World)
    requires IsSystemStep(step) && Enabled(v, step) && SystemRun(Apply(v, step), steps, w)
    ensures SystemRun(v, [step] + steps, w)
  {
    assert ([step] + steps)[1..] == steps;
  }

  /** Wherever the server and the network bring this world to rest, the locks match the selection. */
  ghost predicate RestsMatched(w: World) {
    forall steps: seq<Step>, w': World :: SystemRun(w, steps, w') && Idle(w'.page) ==> Matches(w')
  }

  // ----- seats that cannot come to match -----

  /** A held lock that nothing is going to release, of a seat about to be dropped. */
  predicate Losing(l: Local) {
    && l.held && !l.leaked && l.unlock.NoUnlock? && l.sweep.NoSweep?
    && if l.selected then l.lock.Parked? || (l.lock.Asking? && l.lock.verdict in {None, Some(Refused)})
       else l.lock.NoLock?
  }

  /** A selected seat without a lock of its own, or with one that is going to be released. */
  predicate Unlocked(l: Local) {
    l.selected && l.lock.NoLock? && (!l.held || l.leaked || l.unlock.UnlockSent? || l.sweep.SweepAhead?)
  }

  predicate Doomed(l: Local) {
    Losing(l) || Unlocked(l)
  }

  lemma FailKeepsDoom(w: World, id: nat, q: SeatRef)
    requires Shape(w.page) && Doomed(LocalOf(w, q)) && Enabled(w, FailLocally(id))
    ensures Doomed(LocalOf(Apply(w, FailLocally(id)), q))
    ensures Losing(LocalOf(w, q)) ==> Losing(LocalOf(Apply(w, FailLocally(id)), q))
  {
    StatusViews(w.page, id, Answered(Refused), q);
    assert RequestOk(w.page, id);
  }

  lemma UnlockKeepsDoom(w: World, id: nat, q: SeatRef)
    requires Shape(w.page) && Doomed(LocalOf(w, q)) && Enabled(w, ApplyUnlock(id, true))
    ensures Doomed(LocalOf(Apply(w, ApplyUnlock(id, true)), q))
    ensures Losing(LocalOf(w, q)) ==> Losing(LocalOf(Apply(w, ApplyUnlock(id, true)), q))
  {
    StatusViews(w.page, id, Applied(Granted), q);
    assert RequestOk(w.page, id);
  }

  lemma SweepKeepsDoom(w: World, id: nat, q: SeatRef)
    requires Shape(w.page) && Doomed(LocalOf(w, q)) && Enabled(w, FinishSweep(id))
    ensures Doomed(LocalOf(Apply(w, FinishSweep(id)), q))
    ensures Losing(LocalOf(w, q)) ==> Losing(LocalOf(Apply(w, FinishSweep(id)), q))
  {
    StatusViews(w.page, id, Applied(Granted), q);
    assert RequestOk(w.page, id);
  }

  lemma AnswerKeepsDoom(w: World, id: nat, q: SeatRef)
    requires Shape(w.page) && Doomed(LocalOf(w, q)) && Enabled(w, Answer(id))
    ensures Doomed(LocalOf(Apply(w, Answer(id)), q))
    ensures Losing(LocalOf(w, q)) ==> Losing(LocalOf(Apply(w, Answer(id)), q))
  {
    var verdict := w.page.net[id].status.verdict;
    StatusViews(w.page, id, Answered(verdict), q);
    assert RequestOk(w.page, id);
    assert LocalOf(Apply(w, Answer(id)), q) == LocalOf(w.(page := SetStatus(w.page, id, Answered(verdict))), q);
  }

  lemma ResumeKeepsDoom(w: World, ref: SeatRef, q: SeatRef)
    requires Shape(w.page) && Doomed(LocalOf(w, q)) && Enabled(w, Resume(ref))
    ensures Doomed(LocalOf(Apply(w, Resume(ref)), q))
    ensures Losing(LocalOf(w, q)) ==> Losing(LocalOf(Apply(w, Resume(ref)), q))
  {
    var v := w.page.net[w.page.locks[ref].phase.request].status.verdict;
    if v.Granted? || (v.Unclear? && !IsSelected(w.page, ref)) {
      ResumeViews(w, ref, q);
    } else {
      ResumeFailedLocals(w, ref, q);
    }
  }

  lemma ParkViews(p: Page, ref: SeatRef, on: set<nat>, q: SeatRef, held: bool, leaked: bool)
    requires ref in p.locks
    ensures PageLocal(SetPhase(p, ref, Blocked(on)), q, held, leaked) ==
      var l := PageLocal(p, q, held, leaked); if q == ref then l.(lock := Parked) else l
  {
  }

  lemma SendViews(p: Page, ref: SeatRef, q: SeatRef, held: bool, leaked: bool)
    requires Shape(p) && ref in p.locks
    ensures PageLocal(SendLock(p, ref), q, held, leaked) ==
      var l := PageLocal(p, q, held, leaked); if q == ref then l.(lock := Asking(true, None)) else l
  {
    AskViews(p, ref, q);
  }

  lemma OthersContinue(p: Page, ref: SeatRef, q: SeatRef, held: bool, leaked: bool)
    requires Shape(p) && ref in p.locks && q != ref
    ensures PageLocal(ContinueLock(p, ref, {}), q, held, leaked) == PageLocal(p, q, held, leaked)
  {
    FinishViews(p, ref, q, held, leaked);
    ParkViews(p, ref, Blockers(p, ref, {}), q, held, leaked);
    SendViews(p, ref, q, held, leaked);
  }

  lemma WakeKeepsDoom(w: World, ref: SeatRef, q: SeatRef)
    requires Shape(w.page) && Doomed(LocalOf(w, q)) && Enabled(w, Wake(ref))
    ensures Doomed(LocalOf(Apply(w, Wake(ref)), q))
    ensures Losing(LocalOf(w, q)) ==> Losing(LocalOf(Apply(w, Wake(ref)), q))
  {
    if q == ref {
      AskViews(w.page, ref, q);
    } else if w.page.locks[ref].phase.AwaitReleaseAll? {
      UnlockViews(w.page, ref, q);
    } else {
      OthersContinue(w.page, ref, q, q in w.held, q in w.leaked);
    }
  }

  lemma EndKeepsDoom(w: World, step: Step, q: SeatRef)
    requires Shape(w.page) && Doomed(LocalOf(w, q)) && Enabled(w, step) && (step.EndUnlock? || step.EndReleaseAll?)
    ensures Doomed(LocalOf(Apply(w, step), q))
    ensures Losing(LocalOf(w, q)) ==> Losing(LocalOf(Apply(w, step), q))
  {
    if step.EndUnlock? { SettleUnlockViews(w.page, step.ref, q); } else { SettleReleaseAllViews(w.page, step.showtime, q); }
  }

  lemma DoomStays(w: World, step: Step, q: SeatRef)
    requires Shape(w.page) && Doomed(LocalOf(w, q)) && Enabled(w, step) && TakesNoLock(step)
    ensures Doomed(LocalOf(Apply(w, step), q))
    ensures Losing(LocalOf(w, q)) ==> Losing(LocalOf(Apply(w, step), q))
  {
    match step
    case FailLocally(id) => FailKeepsDoom(w, id, q);
    case ApplyUnlock(id, _) => UnlockKeepsDoom(w, id, q);
    case FinishSweep(id) => SweepKeepsDoom(w, id, q);
    case Answer(id) => AnswerKeepsDoom(w, id, q);
    case Resume(ref) => ResumeKeepsDoom(w, ref, q);
    case Wake(ref) => WakeKeepsDoom(w, ref, q);
    case EndUnlock(_) => EndKeepsDoom(w, step, q);
    case EndReleaseAll(_) => EndKeepsDoom(w, step, q);
  }

  /** The server can bring the page to rest without taking a lock, and the seat stays as it is. */
  lemma {:induction false} DoomReachesRest(w: World, q: SeatRef) returns (steps: seq<Step>, w': World)
    requires Shape(w.page) && Doomed(LocalOf(w, q))
    ensures SystemRun(w, steps, w') && Idle(w'.page) && Doomed(LocalOf(w', q))
    ensures Losing(LocalOf(w, q)) ==> Losing(LocalOf(w', q))
    decreases Work(w.page), Unvisited(w.page.net)
  {
    if Idle(w.page) {
      steps, w' := [], w;
    } else {
      PendingCanMove(w);
      var step :| IsSystemStep(step) && TakesNoLock(step) && Enabled(w, step);
      SystemStepProgresses(w, step);
      KeepsShape(w, step);
      DoomStays(w, step, q);
      var rest;
      rest, w' := DoomReachesRest(Apply(w, step), q);
      steps := [step] + rest;
      SystemRunCons(w, step, rest, w');
    }
  }

  lemma RestingDoom(w: World, q: SeatRef)
    requires Idle(w.page) && Doomed(LocalOf(w, q))
    ensures !Matches(w)
  {
    var s := q.showtime;
    assert q.seat in HeldOf(w, s) <==> q in w.held;
    assert q.seat in LeakedOf(w, s) <==> q in w.leaked;
    assert q.seat in SelectedOf(w.page, s) <==> IsSelected(w.page, q);
  }

  lemma DoomRefutes(w: World, q: SeatRef)
    requires Shape(w.page) && Doomed(LocalOf(w, q))
    ensures !RestsMatched(w)
  {
    var steps, w' := DoomReachesRest(w, q);
    RestingDoom(w', q);
  }

  // ----- lock clicks -----

  lemma StartViews(p: Page, ref: SeatRef, held: bool, leaked: bool)
    requires ref !in p.locks && IsSelected(p, ref)
    ensures PageLocal(StartLock(p, ref), ref, held, leaked) == PageLocal(p, ref, held, leaked).(lock := Parked)
  {
  }

  /** A seat that is selected and locked already is locked once more, and is about to be lost. */
  lemma RelockIsLosing(w: World, ref: SeatRef, limit: Option<nat>)
    requires Inv(w) && IsSelected(w.page, ref) && ref !in w.page.locks
    ensures Losing(LocalOf(Apply(w, DoLockClick(ref, limit)), ref))
  {
    var p1 := StartLock(w.page, ref);
    var on := Blockers(p1, ref, ExtraReleases(AddSeat(w.page, ref.seat), ref, limit));
    assert LocalOk(LocalOf(w, ref));
    NewLockKeepsShape(w.page, ref);
    StartViews(w.page, ref, ref in w.held, ref in w.leaked);
    ParkViews(p1, ref, on, ref, ref in w.held, ref in w.leaked);
    SendViews(p1, ref, ref, ref in w.held, ref in w.leaked);
  }

  /** The server refuses a seat it already holds for the user, and the page drops it. */
  lemma RelockLosesSeat(w: World, ref: SeatRef, limit: Option<nat>) returns (steps: seq<Step>, w': World)
    requires Inv(w) && IsSelected(w.page, ref) && ref !in w.page.locks
    ensures SystemRun(Apply(w, DoLockClick(ref, limit)), steps, w') && Idle(w'.page)
    ensures ref in w'.held && ref !in w'.leaked && !IsSelected(w'.page, ref)
  {
    var w1 := Apply(w, DoLockClick(ref, limit));
    KeepsShape(w, DoLockClick(ref, limit));
    RelockIsLosing(w, ref, limit);
    steps, w' := DoomReachesRest(w1, ref);
  }

  /** A click for another showtime selects a seat that nothing locks. */
  lemma ForeignClickUnlocked(w: World, ref: SeatRef, limit: Option<nat>)
    requires Inv(w) && w.page.showtime.Some? && w.page.showtime.value != ref.showtime
    requires !ClickGuard(w.page, ref)
    ensures Unlocked(LocalOf(Apply(w, DoLockClick(ref, limit)), SeatRef(w.page.showtime.value, ref.seat)))
  {
    assert LocalOk(LocalOf(w, SeatRef(w.page.showtime.value, ref.seat)));
  }

  /** In every reachable world the guard of a lock click is exactly what keeps locks and selection matched. */
  lemma ClickGuardIsExact(w: World, ref: SeatRef, limit: Option<nat>)
    requires Inv(w)
    ensures ClickGuard(w.page, ref) <==> RestsMatched(Apply(w, DoLockClick(ref, limit)))
  {
    var step := DoLockClick(ref, limit);
    KeepsShape(w, step);
    if ClickGuard(w.page, ref) {
      GuardedStepMatches(w, step);
    } else if w.page.showtime.value == ref.showtime {
      RelockIsLosing(w, ref, limit);
      DoomRefutes(Apply(w, step), ref);
    } else {
      ForeignClickUnlocked(w, ref, limit);
      DoomRefutes(Apply(w, step), SeatRef(w.page.showtime.value, ref.seat));
    }
  }

  lemma GuardedStepMatches(w: World, step: Step)
    requires Inv(w) && Enabled(w, step) && PageGuard(w.page, step)
    ensures RestsMatched(Apply(w, step))
  {
    var w1 := Apply(w, step);
    StepKeepsInv(w, step);
    forall steps: seq<Step>, w': World | SystemRun(w1, steps, w') && Idle(w'.page) ensures Matches(w') {
      SystemRunMatches(w1, steps, w');
    }
  }

  // ----- changes of showtime -----

  /** A selected seat at rest loses its lock while it stays selected, or keeps it while it does not. */
  lemma SwitchDooms(w: World, next: Option<Showtime>, release: bool, q: SeatRef)
    requires Inv(w) && IsSelected(w.page, q) && q !in w.page.locks && (release <==> next == w.page.showtime)
    ensures Doomed(LocalOf(w.(page := SwitchShowtime(w.page, next, release)), q))
  {
    assert LocalOk(LocalOf(w, q));
    if release {
      SwitchStays(w, q);
    } else {
      SwitchLeaves(w, next, q);
    }
  }

  /** In every reachable world the guard of a change of showtime is exactly what keeps locks and selection matched. */
  lemma SwitchGuardIsExact(w: World, next: Option<Showtime>, release: bool)
    requires Inv(w)
    ensures SwitchGuard(w.page, next, release) <==> RestsMatched(Apply(w, DoSwitchShowtime(next, release)))
  {
    var step := DoSwitchShowtime(next, release);
    KeepsShape(w, step);
    if SwitchGuard(w.page, next, release) {
      GuardedStepMatches(w, step);
    } else {
      var k :| k in w.page.selected && SeatRef(w.page.showtime.value, k) !in w.page.locks;
      var q := SeatRef(w.page.showtime.value, k);
      SwitchDooms(w, next, release, q);
      DoomRefutes(Apply(w, step), q);
    }
  }

  // ----- what clicks achieve -----

  /** The selection of q is within that of p. */
  predicate SelectsLess(p: Page, q: Page) {
    q.showtime == p.showtime && q.selected <= p.selected
  }

  lemma ContinueSelectsLess(p: Page, ref: SeatRef)
    requires ref in p.locks
    ensures SelectsLess(p, ContinueLock(p, ref, {})) && SelectsLess(p, AwaitOwnUnlock(p, ref)) && SelectsLess(p, Finish(p, ref))
  {
  }

  lemma ResumeSelectsLess(p: Page, ref: SeatRef, verdict: Verdict)
    requires ref in p.locks && p.locks[ref].phase.Requesting?
    ensures SelectsLess(p, ResumeLock(p, ref, verdict))
  {
    var p1 := p.(net := p.net - {p.locks[ref].phase.request});
    ContinueSelectsLess(p1, ref);
    ContinueSelectsLess(RemoveSeat(p1, ref.seat), ref);
  }

  /** Without clicks nothing is selected. */
  lemma SelectionShrinks(w: World, step: Step)
    requires IsSystemStep(step) && Enabled(w, step)
    ensures SelectsLess(w.page, Apply(w, step).page)
  {
    if step.Resume? {
      ResumeSelectsLess(w.page, step.ref, w.page.net[w.page.locks[step.ref].phase.request].status.verdict);
    } else if step.Wake? {
      ContinueSelectsLess(w.page, step.ref);
    }
  }

  lemma RestingSeat(w: World, ref: SeatRef)
    requires Inv(w) && Idle(w.page)
    ensures if IsSelected(w.page, ref) then ref in w.held && ref !in w.leaked else ref in w.held <==> ref in w.leaked
  {
    IdleShowtime(w, ref.showtime);
    assert ref.seat in HeldOf(w, ref.showtime) <==> ref in w.held;
    assert ref.seat in LeakedOf(w, ref.showtime) <==> ref in w.leaked;
  }

  /** A seat that is not selected ends unselected, and released unless the server refused to or left it undone. */
  lemma {:induction false} DroppedEndsReleased(v: World, steps: seq<Step>, w: World, ref: SeatRef)
    requires Inv(v) && SystemRun(v, steps, w) && Idle(w.page) && !IsSelected(v.page, ref)
    ensures !IsSelected(w.page, ref) && (ref in w.held <==> ref in w.leaked)
    decreases |steps|
  {
    if steps == [] {
      RestingSeat(w, ref);
    } else {
      StepKeepsInv(v, steps[0]);
      SelectionShrinks(v, steps[0]);
      DroppedEndsReleased(Apply(v, steps[0]), steps[1..], w, ref);
    }
  }

  /** A released seat leaves the selection at once, alone, and ends released. */
  lemma ReleaseClickReleases(v: World, ref: SeatRef, steps: seq<Step>, w: World)
    requires Inv(v) && SystemRun(Apply(v, DoReleaseClick(ref)), steps, w) && Idle(w.page)
    ensures Apply(v, DoReleaseClick(ref)).page.showtime == v.page.showtime
    ensures Apply(v, DoReleaseClick(ref)).page.selected ==
            if v.page.showtime == Some(ref.showtime) then v.page.selected - {ref.seat} else v.page.selected
    ensures !IsSelected(w.page, ref) && (ref in w.held <==> ref in w.leaked)
  {
    StepKeepsInv(v, DoReleaseClick(ref));
    DroppedEndsReleased(Apply(v, DoReleaseClick(ref)), steps, w, ref);
  }

  /** Clearing empties the selection, and every seat of the showtime ends released. */
  lemma ClearClickReleases(v: World, ref: SeatRef, steps: seq<Step>, w: World)
    requires Inv(v) && v.page.showtime == Some(ref.showtime)
    requires SystemRun(Apply(v, DoClearClick), steps, w) && Idle(w.page)
    ensures Apply(v, DoClearClick).page.selected == {} && Apply(v, DoClearClick).page.showtime == v.page.showtime
    ensures !IsSelected(w.page, ref) && (ref in w.held <==> ref in w.leaked)
  {
    StepKeepsInv(v, DoClearClick);
    DroppedEndsReleased(Apply(v, DoClearClick), steps, w, ref);
  }

  /** Leaving a showtime selects the next one with no seats, and every seat of the old one ends released. */
  lemma LeavingReleases(v: World, next: Option<Showtime>, ref: SeatRef, steps: seq<Step>, w: World)
    requires Inv(v) && v.page.showtime == Some(ref.showtime) && next != v.page.showtime
    requires SystemRun(Apply(v, DoSwitchShowtime(next, true)), steps, w) && Idle(w.page)
    ensures var p := Apply(v, DoSwitchShowtime(next, true)).page; p.showtime == next && p.selected == {}
    ensures !IsSelected(w.page, ref) && (ref in w.held <==> ref in w.leaked)
  {
    StepKeepsInv(v, DoSwitchShowtime(next, true));
    DroppedEndsReleased(Apply(v, DoSwitchShowtime(next, true)), steps, w, ref);
  }

  lemma LockClickSelects(p: Page, ref: SeatRef, limit: Option<nat>)
    ensures LockClick(p, ref, limit).showtime == p.showtime && LockClick(p, ref, limit).selected == p.selected + {ref.seat}
    ensures p.showtime == Some(ref.showtime) ==> ref in LockClick(p, ref, limit).locks
  {
    if ref !in p.locks {
      var p1 := StartLock(p, ref);
      ContinueKeepsSelection(p1, ref, ExtraReleases(AddSeat(p, ref.seat), ref, limit));
      assert p.showtime == Some(ref.showtime) ==> IsSelected(p1, ref);
    }
  }

  lemma ContinueKeepsSelection(p: Page, ref: SeatRef, extra: set<nat>)
    requires ref in p.locks
    ensures var q := ContinueLock(p, ref, extra);
      q.showtime == p.showtime && q.selected == p.selected && (IsSelected(p, ref) ==> ref in q.locks)
  {
    var on := Blockers(p, ref, extra);
    assert SetPhase(p, ref, Blocked(on)).selected == p.selected && ref in SetPhase(p, ref, Blocked(on)).locks;
    assert SendLock(p, ref).selected == p.selected && ref in SendLock(p, ref).locks;
  }

  lemma {:induction false} SystemRunKeepsInv(v: World, steps: seq<Step>, w: World)
    requires Inv(v) && SystemRun(v, steps, w)
    ensures Inv(w)
    decreases |steps|
  {
    if steps != [] {
      StepKeepsInv(v, steps[0]);
      SystemRunKeepsInv(Apply(v, steps[0]), steps[1..], w);
    }
  }

  /** A lock click selects its seat and starts its operation, and a seat still selected at rest is locked. */
  lemma LockClickLocks(v: World, ref: SeatRef, limit: Option<nat>, steps: seq<Step>, w: World)
    requires Inv(v) && ClickGuard(v.page, ref) && v.page.showtime == Some(ref.showtime)
    requires SystemRun(Apply(v, DoLockClick(ref, limit)), steps, w) && Idle(w.page)
    ensures var p := Apply(v, DoLockClick(ref, limit)).page;
      p.showtime == v.page.showtime && p.selected == v.page.selected + {ref.seat} && ref in p.locks
    ensures IsSelected(w.page, ref) ==> ref in w.held && ref !in w.leaked
  {
    StepKeepsInv(v, DoLockClick(ref, limit));
    LockClickSelects(v.page, ref, limit);
    SystemRunKeepsInv(Apply(v, DoLockClick(ref, limit)), steps, w);
    RestingSeat(w, ref);
  }
}
