/** The promises of the seat lock controller, over every interleaving. */
module SeatLockSafety {
  import opened SeatLockPage
  import opened SeatLockWorld
  import opened SeatLockInvariant
  import opened SeatLockShape
  import opened SeatLockLocal
  import opened SeatLockSnapshots

  lemma KeepsShape(w: World, step: Step)
    requires Shape(w.page) && Enabled(w, step)
    ensures Shape(Apply(w, step).page)
  {
    var p := w.page;
    match step
    case DoLockClick(ref, limit) => LockClickKeepsShape(p, ref, limit);
    case DoReleaseClick(ref) => ReleaseClickKeepsShape(p, ref);
    case DoClearClick => ClearClickKeepsShape(p);
    case DoSwitchShowtime(next, release) => SwitchKeepsShape(p, next, release);
    case ApplyLock(id, verdict, _) => StatusKeepsShape(p, id, Applied(verdict));
    case ApplyUnlock(id, released) => StatusKeepsShape(p, id, Applied(if released then Granted else Refused));
    case StartSweep(id) => StatusKeepsShape(p, id, Releasing(HeldOf(w, p.net[id].target.showtime)));
    case SweepSeat(id, seat, _) => StatusKeepsShape(p, id, Releasing(p.net[id].status.todo - {seat}));
    case FinishSweep(id) => StatusKeepsShape(p, id, Applied(Granted));
    case Answer(id) =>
      StatusKeepsShape(p, id, Answered(p.net[id].status.verdict));
      SameShape(SetStatus(p, id, Answered(p.net[id].status.verdict)), Apply(w, step).page);
    case FailLocally(id) => StatusKeepsShape(p, id, Answered(Refused));
    case Resume(ref) => ResumeKeepsShape(p, ref, p.net[p.locks[ref].phase.request].status.verdict);
    case Wake(ref) => WakeKeepsShape(p, ref);
    case EndUnlock(ref) => SettleUnlockKeepsShape(p, ref);
    case EndReleaseAll(s) => SettleReleaseAllKeepsShape(p, s);
    case RequestSnapshot(_) => SameShape(p, Apply(w, step).page);
    case ReadSnapshot(_, _) =>
    case Reconcile(_) => SameShape(p, Apply(w, step).page);
  }

  lemma KeepsNumbers(w: World, step: Step)
    requires Numbered(w.page) && Enabled(w, step) && PageGuard(w.page, step)
    requires w.page.nextId !in w.page.net && w.page.nextId + 1 !in w.page.net
    ensures Numbered(Apply(w, step).page)
  {
    if IsPageStep(step) { QuietRemembers(w, step); }
  }

  /** A current snapshot of a showtime with nothing pending shows exactly the locks held now. */
  lemma CurrentSnapshot(w: World, i: nat)
    requires Inv(w) && i < |w.snaps|
    requires IsSnapshotCurrent(w.page, w.snaps[i].seq_, w.snaps[i].showtime)
    ensures !w.snaps[i].touched
    ensures w.snaps[i].value.Some? ==> w.snaps[i].value.value == HeldOf(w, w.snaps[i].showtime)
  {
    var q := w.snaps[i];
    assert SnapOk(w, q);
    if Unrecorded(w.page, q.showtime) {
      var j :| j in w.page.net && ShowtimeOf(w.page.net[j].target) == q.showtime;
      assert RequestOk(w.page, j);
    }
  }

  lemma ReconcileLocal(w: World, i: nat, q: SeatRef)
    requires Inv(w) && Enabled(w, Reconcile(i))
    ensures LocalOk(LocalOf(Apply(w, Reconcile(i)), q))
  {
    assert LocalOk(LocalOf(w, q));
    CurrentSnapshot(w, i);
    assert q.seat in HeldOf(w, q.showtime) <==> q in w.held;
  }

  lemma KeepsLocal(w: World, step: Step, q: SeatRef)
    requires Inv(w) && Enabled(w, step) && PageGuard(w.page, step)
    ensures LocalOk(LocalOf(Apply(w, step), q))
  {
    assert LocalOk(LocalOf(w, q));
    match step
    case DoLockClick(ref, limit) => LockClickLocal(w, ref, limit, q);
    case DoReleaseClick(ref) => ReleaseClickLocal(w, ref, q);
    case DoClearClick => ClearClickLocal(w, q);
    case DoSwitchShowtime(next, release) => SwitchLocal(w, next, release, q);
    case ApplyLock(id, verdict, took) => ApplyLockLocal(w, id, verdict, took, q);
    case ApplyUnlock(id, released) => ApplyUnlockLocal(w, id, released, q);
    case StartSweep(id) => StartSweepLocal(w, id, q);
    case SweepSeat(id, seat, released) => SweepSeatLocal(w, id, seat, released, q);
    case FinishSweep(id) => FinishSweepLocal(w, id, q);
    case Answer(id) =>
      AnswerLocal(w, id, Answered(w.page.net[id].status.verdict), q);
    case FailLocally(id) => AnswerLocal(w, id, Answered(Refused), q);
    case Resume(ref) => ResumeLocal(w, ref, q);
    case Wake(ref) => assert LocalOk(LocalOf(w, ref)); WakeLocal(w, ref, q);
    case EndUnlock(ref) => EndUnlockLocal(w, ref, q);
    case EndReleaseAll(s) => EndReleaseAllLocal(w, s, q);
    case RequestSnapshot(_) =>
    case ReadSnapshot(_, _) =>
    case Reconcile(i) => ReconcileLocal(w, i, q);
  }

  lemma StepKeepsInv(w: World, step: Step)
    requires Inv(w) && Enabled(w, step) && PageGuard(w.page, step)
    ensures Inv(Apply(w, step))
  {
    KeepsShape(w, step);
    assert RequestOk(w.page, w.page.nextId) && RequestOk(w.page, w.page.nextId + 1);
    KeepsNumbers(w, step);
    KeepsSnaps(w, step);
    forall q: SeatRef ensures LocalOk(LocalOf(Apply(w, step), q)) { KeepsLocal(w, step, q); }
  }

  lemma InitInv(w: World)
    requires Init(w)
    ensures Inv(w)
  {
    forall q: SeatRef ensures LocalOk(LocalOf(w, q)) {
      assert IsSelected(w.page, q) <==> q in SelectedRefs(w.page);
    }
  }

  lemma {:induction false} RunKeepsInv(v: World, steps: seq<Step>, w: World)
    requires Inv(v) && Run(v, steps, w)
    ensures Inv(w)
    decreases |steps|
  {
    if steps != [] {
      StepKeepsInv(v, steps[0]);
      RunKeepsInv(Apply(v, steps[0]), steps[1..], w);
    }
  }

  function LeakedOf(w: World, s: Showtime): set<SeatKey> {
    set r <- w.leaked | r.showtime == s :: r.seat
  }

  function SelectedOf(p: Page, s: Showtime): set<SeatKey> {
    if p.showtime == Some(s) then p.selected else {}
  }

  /**
   With nothing pending for a showtime, the server's locks are the selected seats
   and the leaked ones, and no seat is both: no selected seat is without a lock,
   and no lock is hidden unless its release was refused.
   */
  lemma IdleShowtime(w: World, s: Showtime)
    requires Inv(w) && !HasPendingFor(w.page, s)
    ensures HeldOf(w, s) == SelectedOf(w.page, s) + LeakedOf(w, s)
    ensures SelectedOf(w.page, s) !! LeakedOf(w, s)
  {
    forall k: SeatKey
      ensures k in HeldOf(w, s) <==> k in SelectedOf(w.page, s) || k in LeakedOf(w, s)
      ensures !(k in SelectedOf(w.page, s) && k in LeakedOf(w, s))
    {
      var ref := SeatRef(s, k);
      assert LocalOk(LocalOf(w, ref));
      assert k in HeldOf(w, s) <==> ref in w.held;
      assert k in LeakedOf(w, s) <==> ref in w.leaked;
    }
  }

  /** The main promise: after any run within the page's guards, an idle showtime has no unexplained lock. */
  lemma LocksMatchSelection(v: World, steps: seq<Step>, w: World, s: Showtime)
    requires Init(v) && Run(v, steps, w) && !HasPendingFor(w.page, s)
    ensures HeldOf(w, s) == SelectedOf(w.page, s) + LeakedOf(w, s)
    ensures SelectedOf(w.page, s) !! LeakedOf(w, s)
    ensures HeldOf(w, s) == SelectedOf(w.page, s) <==> LeakedOf(w, s) == {}
  {
    InitInv(v);
    RunKeepsInv(v, steps, w);
    IdleShowtime(w, s);
  }

  // ----- definite answers -----

  /** For this showtime the server answers the step definitely, and carries out the release it was asked for. */
  ghost predicate Definite(w: World, step: Step, s: Showtime)
    requires Enabled(w, step)
  {
    match step
    case ApplyLock(id, verdict, _) => ShowtimeOf(w.page.net[id].target) == s ==> !verdict.Unclear?
    case ApplyUnlock(id, released) => ShowtimeOf(w.page.net[id].target) == s ==> released
    case SweepSeat(id, _, released) => ShowtimeOf(w.page.net[id].target) == s ==> released
    case FinishSweep(id) => ShowtimeOf(w.page.net[id].target) == s ==> Uncovered(w, id) == {}
    case _ => true
  }

  ghost predicate DefiniteRun(v: World, steps: seq<Step>, s: Showtime)
    decreases |steps|
  {
    steps == [] ||
    (Enabled(v, steps[0]) && Definite(v, steps[0], s) && DefiniteRun(Apply(v, steps[0]), steps[1..], s))
  }

  /** No lock request of this showtime has an unclear answer. */
  ghost predicate Clear(p: Page, s: Showtime) {
    forall i <- p.net :: p.net[i].target.LockSeat? && p.net[i].target.ref.showtime == s ==>
      VerdictIn(p.net, i) != Some(Unclear)
  }

  /** A running release-all of the showtime will still visit every leaked seat. */
  ghost predicate SweepsCover(w: World, s: Showtime) {
    forall i <- w.page.net :: w.page.net[i].target == UnlockAll(s) && w.page.net[i].status.Releasing? ==>
      LeakedOf(w, s) <= w.page.net[i].status.todo
  }

  ghost predicate LeaksShrink(w: World, w': World, s: Showtime) {
    forall r <- w'.leaked :: r.showtime == s ==> r in w.leaked
  }

  lemma FewerLeaked(w: World, w': World, s: Showtime)
    requires LeaksShrink(w, w', s)
    ensures LeakedOf(w', s) <= LeakedOf(w, s)
  {
  }

  lemma DefinitePageStep(w: World, step: Step, s: Showtime)
    requires Inv(w) && Enabled(w, step) && IsPageStep(step) && Clear(w.page, s)
    ensures Clear(Apply(w, step).page, s) && LeaksShrink(w, Apply(w, step), s)
  {
    var p := w.page;
    assert RequestOk(p, p.nextId) && RequestOk(p, p.nextId + 1);
    QuietRemembers(w, step);
    if step.Resume? { DefiniteResume(w, step.ref, s); }
  }

  lemma DefiniteResume(w: World, ref: SeatRef, s: Showtime)
    requires Inv(w) && Enabled(w, Resume(ref)) && Clear(w.page, s)
    ensures LeaksShrink(w, Apply(w, Resume(ref)), s)
  {
    assert LockOk(w.page, ref);
  }

  lemma DefiniteServerStep(w: World, step: Step, s: Showtime)
    requires Inv(w) && Enabled(w, step) && Definite(w, step, s) && !IsPageStep(step) && Clear(w.page, s)
    ensures Clear(Apply(w, step).page, s) && LeaksShrink(w, Apply(w, step), s)
  {
  }

  lemma DefiniteStep(w: World, step: Step, s: Showtime)
    requires Inv(w) && Enabled(w, step) && Definite(w, step, s) && Clear(w.page, s)
    ensures Clear(Apply(w, step).page, s) && LeaksShrink(w, Apply(w, step), s)
  {
    if IsPageStep(step) { DefinitePageStep(w, step, s); } else { DefiniteServerStep(w, step, s); }
  }

  lemma LeakedAreHeld(w: World, s: Showtime)
    requires Inv(w)
    ensures LeakedOf(w, s) <= HeldOf(w, s)
  {
    forall r <- w.leaked ensures r in w.held { assert LocalOk(LocalOf(w, r)); }
  }

  lemma PageStepsKeepSweeps(w: World, step: Step, s: Showtime)
    requires Inv(w) && Enabled(w, step) && IsPageStep(step) && SweepsCover(w, s)
    requires LeaksShrink(w, Apply(w, step), s)
    ensures SweepsCover(Apply(w, step), s)
  {
    var p := w.page;
    assert RequestOk(p, p.nextId) && RequestOk(p, p.nextId + 1);
    QuietRemembers(w, step);
    FewerLeaked(w, Apply(w, step), s);
  }

  lemma ServerStepsKeepSweeps(w: World, step: Step, s: Showtime)
    requires Inv(w) && Enabled(w, step) && Definite(w, step, s) && !IsPageStep(step) && SweepsCover(w, s)
    requires LeaksShrink(w, Apply(w, step), s)
    ensures SweepsCover(Apply(w, step), s)
  {
    FewerLeaked(w, Apply(w, step), s);
    LeakedAreHeld(w, s);
  }

  /** The showtime's leaks are gone after a snapshot was reconciled, and after a release-all ran to its end. */
  ghost predicate ClearsLeaks(w: World, step: Step, s: Showtime)
    requires Enabled(w, step)
  {
    || (step.Reconcile? && w.snaps[step.index].showtime == s)
    || (step.FinishSweep? && w.page.net[step.id].target == UnlockAll(s))
  }

  /** A release-all about to end has every leaked seat left to deal with. */
  lemma LeakedAreUncovered(w: World, id: nat, s: Showtime, r: SeatRef)
    requires Inv(w) && SweepsCover(w, s) && id in w.page.net && w.page.net[id].target == UnlockAll(s)
    requires w.page.net[id].status.Sent? || w.page.net[id].status.Releasing?
    requires r in w.leaked && r.showtime == s
    ensures r in Uncovered(w, id)
  {
    assert LocalOk(LocalOf(w, r));
    assert r.seat in LeakedOf(w, s);
  }

  lemma ClearingStepClears(w: World, step: Step, s: Showtime)
    requires Inv(w) && Enabled(w, step) && Definite(w, step, s) && ClearsLeaks(w, step, s) && SweepsCover(w, s)
    ensures LeakedOf(Apply(w, step), s) == {}
  {
    if step.FinishSweep? {
      forall r <- w.leaked ensures r.showtime == s ==> r in Uncovered(w, step.id) {
        if r.showtime == s { LeakedAreUncovered(w, step.id, s, r); }
      }
    }
  }

  ghost predicate ClearedIn(v: World, steps: seq<Step>, s: Showtime)
    requires DefiniteRun(v, steps, s)
    decreases |steps|
  {
    steps != [] && (ClearsLeaks(v, steps[0], s) || ClearedIn(Apply(v, steps[0]), steps[1..], s))
  }

  lemma {:induction false} DefiniteRunLeaksNothing(v: World, steps: seq<Step>, w: World, s: Showtime)
    requires Inv(v) && Run(v, steps, w) && DefiniteRun(v, steps, s) && Clear(v.page, s) && SweepsCover(v, s)
    requires LeakedOf(v, s) == {} || ClearedIn(v, steps, s)
    ensures LeakedOf(w, s) == {}
    decreases |steps|
  {
    if steps != [] {
      var v1 := Apply(v, steps[0]);
      DefiniteStep(v, steps[0], s);
      FewerLeaked(v, v1, s);
      StepKeepsInv(v, steps[0]);
      if IsPageStep(steps[0]) { PageStepsKeepSweeps(v, steps[0], s); } else { ServerStepsKeepSweeps(v, steps[0], s); }
      if ClearsLeaks(v, steps[0], s) { ClearingStepClears(v, steps[0], s); }
      DefiniteRunLeaksNothing(v1, steps[1..], w, s);
    }
  }

  /**
   With definite answers for a showtime, and no lock of it left over from before or a
   snapshot or release-all that cleared those since, its locks are exactly its selection.
   */
  lemma DefiniteAnswersMatchExactly(v: World, steps: seq<Step>, w: World, s: Showtime)
    requires Init(v) && Run(v, steps, w) && DefiniteRun(v, steps, s)
    requires LeakedOf(v, s) == {} || ClearedIn(v, steps, s)
    requires !HasPendingFor(w.page, s)
    ensures HeldOf(w, s) == SelectedOf(w.page, s)
  {
    InitInv(v);
    DefiniteRunLeaksNothing(v, steps, w, s);
    LocksMatchSelection(v, steps, w, s);
  }

  /**
   With nothing pending for the selected showtime a snapshot can be requested, read and
   reconciled, and then the selection is what the server holds: leaked locks are found again.
   */
  lemma ReconcileFindsLeaks(w: World, s: Showtime) returns (steps: seq<Step>, w': World)
    requires Inv(w) && w.page.showtime == Some(s) && !HasPendingFor(w.page, s)
    ensures Run(w, steps, w') && |steps| == 3 && steps[0] == RequestSnapshot(s) && steps[2] == Reconcile(|w.snaps|)
    ensures SelectedOf(w'.page, s) == HeldOf(w', s) == HeldOf(w, s) && LeakedOf(w', s) == {}
  {
    var i := |w.snaps|;
    steps := [RequestSnapshot(s), ReadSnapshot(i, HeldOf(w, s)), Reconcile(i)];
    var w1 := Apply(w, steps[0]);
    var w2 := Apply(w1, steps[1]);
    assert HeldOf(w1, s) == HeldOf(w, s);
    w' := Apply(w2, steps[2]);
    assert Run(w', [], w');
    RunCons(w2, steps[2], [], w');
    RunCons(w1, steps[1], [steps[2]], w');
    RunCons(w, steps[0], [steps[1], steps[2]], w');
    assert [steps[0]] + [steps[1], steps[2]] == steps && [steps[1]] + [steps[2]] == [steps[1], steps[2]] && [steps[2]] + [] == [steps[2]];
  }

  lemma RunCons(v: World, step: Step, steps: seq<Step>, w: World)
    requires Enabled(v, step) && PageGuard(v.page, step) && Run(Apply(v, step), steps, w)
    ensures Run(v, [step] + steps, w)
  {
    assert ([step] + steps)[1..] == steps;
  }

  // ----- requests in flight -----

  /** At most one lock request per seat is in flight, and never together with an unlock of the seat. */
  lemma RequestsExclude(w: World, i: nat, j: nat, ref: SeatRef)
    requires Inv(w) && i in w.page.net && j in w.page.net && w.page.net[i].target == LockSeat(ref)
    ensures w.page.net[j].target == LockSeat(ref) ==> i == j
    ensures w.page.net[j].target != UnlockSeat(ref)
  {
    assert RequestOk(w.page, i) && RequestOk(w.page, j);
    assert LocalOk(LocalOf(w, ref));
  }

  /** Sending a lock happens only while no release of its seat or of its showtime is pending. */
  lemma LockIsSentAlone(w: World, step: Step, i: nat)
    requires Inv(w) && Enabled(w, step) && PageGuard(w.page, step)
    requires i !in w.page.net && i in Apply(w, step).page.net && Apply(w, step).page.net[i].target.LockSeat?
    ensures var p' := Apply(w, step).page; var ref := p'.net[i].target.ref;
      && ref !in p'.unlocks && ref.showtime !in p'.releaseAlls
      && forall j <- p'.net :: j != i ==> p'.net[j].target !in {LockSeat(ref), UnlockSeat(ref), UnlockAll(ref.showtime)}
  {
    StepKeepsInv(w, step);
    var p' := Apply(w, step).page;
    var ref := p'.net[i].target.ref;
    assert ref.showtime !in p'.releaseAlls && ref !in p'.unlocks by { SentLockIsAlone(w, step); }
    forall j <- p'.net
      ensures j != i ==> p'.net[j].target !in {LockSeat(ref), UnlockSeat(ref), UnlockAll(ref.showtime)}
    {
      assert RequestOk(p', i) && RequestOk(p', j);
    }
  }

  /** The lock requests of p' that p does not have are sent while nothing blocks them. */
  ghost predicate SendsAlone(p: Page, p': Page) {
    forall i <- p'.net :: i !in p.net && p'.net[i].target.LockSeat? ==>
      p'.net[i].target.ref !in p'.unlocks && p'.net[i].target.ref.showtime !in p'.releaseAlls
  }

  lemma SendLockSendsAlone(p: Page, ref: SeatRef)
    requires ref in p.locks && Blockers(p, ref, {}) == {}
    ensures SendsAlone(p, SendLock(p, ref))
  {
  }

  lemma ContinueSendsAlone(p: Page, ref: SeatRef, extra: set<nat>)
    requires ref in p.locks
    ensures SendsAlone(p, ContinueLock(p, ref, extra))
  {
    if IsSelected(p, ref) && Blockers(p, ref, extra) == {} {
      assert Blockers(p, ref, {}) <= Blockers(p, ref, extra);
      SendLockSendsAlone(p, ref);
    } else {
      assert ContinueLock(p, ref, extra).net == p.net;
    }
  }

  lemma LockClickSendsAlone(p: Page, ref: SeatRef, limit: Option<nat>)
    ensures SendsAlone(p, LockClick(p, ref, limit))
  {
    if ref !in p.locks {
      ContinueSendsAlone(StartLock(p, ref), ref, ExtraReleases(AddSeat(p, ref.seat), ref, limit));
    }
  }

  /** No other stretch of the controller sends a lock. */
  ghost predicate SendsNoLock(p: Page, p': Page) {
    forall i <- p'.net :: i !in p.net ==> !p'.net[i].target.LockSeat?
  }

  lemma ResumeSendsNoLock(p: Page, ref: SeatRef, verdict: Verdict)
    requires ref in p.locks && p.locks[ref].phase.Requesting?
    ensures SendsNoLock(p, ResumeLock(p, ref, verdict))
  {
    var p1 := p.(net := p.net - {p.locks[ref].phase.request});
    ResumeRequests(p, ref, verdict);
    UnlockSendsNoLock(p1, ref);
  }

  lemma StatusSendsNothing(p: Page, id: nat, status: Status)
    requires id in p.net
    ensures SetStatus(p, id, status).net.Keys == p.net.Keys
  {
  }

  lemma ServerSendsNothing(w: World, step: Step)
    requires Enabled(w, step) && !IsPageStep(step)
    ensures Apply(w, step).page.net.Keys == w.page.net.Keys
  {
    var p := w.page;
    match step
    case ApplyLock(id, verdict, _) => StatusSendsNothing(p, id, Applied(verdict));
    case ApplyUnlock(id, released) => StatusSendsNothing(p, id, Applied(if released then Granted else Refused));
    case StartSweep(id) => StatusSendsNothing(p, id, Releasing(HeldOf(w, p.net[id].target.showtime)));
    case SweepSeat(id, seat, _) => StatusSendsNothing(p, id, Releasing(p.net[id].status.todo - {seat}));
    case FinishSweep(id) => StatusSendsNothing(p, id, Applied(Granted));
    case Answer(id) => StatusSendsNothing(p, id, Answered(p.net[id].status.verdict));
    case FailLocally(id) => StatusSendsNothing(p, id, Answered(Refused));
    case _ =>
  }

  lemma UnlockSendsNoLock(p: Page, ref: SeatRef)
    ensures SendsNoLock(p, StartUnlock(p, ref))
  {
  }

  lemma ReleaseAllSendsNoLock(p: Page, s: Showtime)
    ensures SendsNoLock(p, StartReleaseAll(p, s))
  {
  }

  lemma ReleaseClickSendsNoLock(p: Page, ref: SeatRef)
    ensures SendsNoLock(p, ReleaseClick(p, ref))
  {
    UnlockSendsNoLock(if p.showtime == Some(ref.showtime) then RemoveSeat(p, ref.seat) else p, ref);
  }

  lemma SwitchSendsNoLock(p: Page, next: Option<Showtime>, release: bool)
    ensures SendsNoLock(p, SwitchShowtime(p, next, release))
  {
    if p.showtime.Some? { ReleaseAllSendsNoLock(p, p.showtime.value); }
  }

  lemma SentLockIsAlone(w: World, step: Step)
    requires Enabled(w, step)
    ensures SendsAlone(w.page, Apply(w, step).page)
  {
    if IsPageStep(step) {
      match step
      case DoLockClick(ref, limit) => LockClickSendsAlone(w.page, ref, limit);
      case DoReleaseClick(ref) => ReleaseClickSendsNoLock(w.page, ref);
      case DoClearClick => ReleaseAllSendsNoLock(w.page.(selected := {}), w.page.showtime.value);
      case DoSwitchShowtime(next, release) => SwitchSendsNoLock(w.page, next, release);
      case Wake(ref) => ContinueSendsAlone(w.page, ref, {});
      case Resume(ref) => ResumeSendsNoLock(w.page, ref, w.page.net[w.page.locks[ref].phase.request].status.verdict);
      case _ =>
    } else {
      ServerSendsNothing(w, step);
    }
  }
}
