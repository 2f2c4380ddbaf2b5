/** Every step keeps what is known about my-locks snapshots. */
module SeatLockSnapshots {
  import opened SeatLockPage
  import opened SeatLockWorld
  import opened SeatLockInvariant

  /** No effect of the server that is still unrecorded is forgotten, and what is new was only just sent. */
  ghost predicate Remembers(p: Page, p': Page) {
    && p'.mountSeq == p.mountSeq && p'.sequence == p.sequence && p'.lastResponse == p.lastResponse
    && (forall i <- p.net :: p.net[i].status.Applied? || p.net[i].status.Releasing? ==> i in p'.net && p'.net[i] == p.net[i])
    && (forall i <- p'.net :: (i in p.net && p'.net[i] == p.net[i]) || p'.net[i].status.Sent?)
  }

  lemma QuietSnaps(w: World, w': World)
    requires SnapsOk(w) && w'.snaps == w.snaps && w'.held == w.held && Remembers(w.page, w'.page)
    ensures SnapsOk(w')
  {
    forall i | 0 <= i < |w.snaps| ensures SnapOk(w', w.snaps[i]) {
      var q := w.snaps[i];
      assert SnapOk(w, q);
      if Unrecorded(w.page, q.showtime) {
        var j :| j in w.page.net && ShowtimeOf(w.page.net[j].target) == q.showtime
          && (w.page.net[j].status.Applied? || w.page.net[j].status.Releasing?);
        assert w'.page.net[j] == w.page.net[j];
      }
    }
  }

  /** The server did something for the showtime of request id: sent snapshots of it may miss that. */
  lemma AppliedSnaps(w: World, id: nat, status: Status, w': World, touched: bool)
    requires SnapsOk(w) && id in w.page.net && (status.Applied? || status.Releasing?)
    requires w'.page == SetStatus(w.page, id, status)
    requires w'.snaps == if touched then Touch(w.snaps, ShowtimeOf(w.page.net[id].target)) else w.snaps
    requires var s := ShowtimeOf(w.page.net[id].target);
      forall r | r in w'.held + w.held :: (touched && r.showtime == s) || (r in w'.held <==> r in w.held)
    ensures SnapsOk(w')
  {
    var s := ShowtimeOf(w.page.net[id].target);
    forall i | 0 <= i < |w.snaps| ensures SnapOk(w', w'.snaps[i]) {
      var q := w.snaps[i];
      assert SnapOk(w, q);
      assert Unrecorded(w'.page, s) by { assert id in w'.page.net && ShowtimeOf(w'.page.net[id].target) == s; }
      if Unrecorded(w.page, q.showtime) && q.showtime != s {
        var j :| j in w.page.net && ShowtimeOf(w.page.net[j].target) == q.showtime
          && (w.page.net[j].status.Applied? || w.page.net[j].status.Releasing?);
        assert w'.page.net[j] == w.page.net[j];
      }
      if !(touched && q.showtime == s) {
        assert HeldOf(w', q.showtime) == HeldOf(w, q.showtime);
      }
    }
  }

  lemma AnswerSnaps(w: World, id: nat)
    requires SnapsOk(w) && Enabled(w, Answer(id))
    ensures SnapsOk(Apply(w, Answer(id)))
  {
    var w' := Apply(w, Answer(id));
    var s := ShowtimeOf(w.page.net[id].target);
    forall i | 0 <= i < |w.snaps| ensures SnapOk(w', w.snaps[i]) {
      var q := w.snaps[i];
      assert SnapOk(w, q);
      if Unrecorded(w.page, q.showtime) && q.showtime != s {
        var j :| j in w.page.net && ShowtimeOf(w.page.net[j].target) == q.showtime
          && (w.page.net[j].status.Applied? || w.page.net[j].status.Releasing?);
        assert w'.page.net[j] == w.page.net[j];
      }
      assert HeldOf(w', q.showtime) == HeldOf(w, q.showtime);
    }
  }
  
  lemma FailSnaps(w: World, id: nat)
    requires SnapsOk(w) && Enabled(w, FailLocally(id))
    ensures SnapsOk(Apply(w, FailLocally(id)))
  {
    var w' := Apply(w, FailLocally(id));
    forall i | 0 <= i < |w.snaps| ensures SnapOk(w', w.snaps[i]) {
      var q := w.snaps[i];
      assert SnapOk(w, q);
      if Unrecorded(w.page, q.showtime) {
        var j :| j in w.page.net && ShowtimeOf(w.page.net[j].target) == q.showtime
          && (w.page.net[j].status.Applied? || w.page.net[j].status.Releasing?);
        assert w'.page.net[j] == w.page.net[j];
      }
    }
  }

  lemma SnapshotStepSnaps(w: World, step: Step)
    requires SnapsOk(w) && Numbered(w.page) && Enabled(w, step)
    requires step.RequestSnapshot? || step.ReadSnapshot? || step.Reconcile?
    ensures SnapsOk(Apply(w, step))
  {
    var w' := Apply(w, step);
    forall i | 0 <= i < |w'.snaps| ensures SnapOk(w', w'.snaps[i]) {
      if i < |w.snaps| { 
        var q := w.snaps[i];
        assert SnapOk(w, q);
        assert HeldOf(w', q.showtime) == HeldOf(w, q.showtime);
        if Unrecorded(w.page, q.showtime) {
          var j :| j in w.page.net && ShowtimeOf(w.page.net[j].target) == q.showtime
            && (w.page.net[j].status.Applied? || w.page.net[j].status.Releasing?);
          assert w'.page.net[j] == w.page.net[j];
        }
       }
    }
  }

  lemma KeepsSnaps(w: World, step: Step)
    requires Inv(w) && Enabled(w, step)
    ensures SnapsOk(Apply(w, step))
  {
    var w' := Apply(w, step);
    match step
    case ApplyLock(id, verdict, took) => AppliedSnaps(w, id, Applied(verdict), w', took);
    case ApplyUnlock(id, released) => AppliedSnaps(w, id, Applied(if released then Granted else Refused), w', released);
    case StartSweep(id) => AppliedSnaps(w, id, Releasing(HeldOf(w, w.page.net[id].target.showtime)), w', false);
    case SweepSeat(id, seat, released) => AppliedSnaps(w, id, Releasing(w.page.net[id].status.todo - {seat}), w', released);
    case FinishSweep(id) => AppliedSnaps(w, id, Applied(Granted), w', false);
    case Answer(id) => AnswerSnaps(w, id);
    case FailLocally(id) => FailSnaps(w, id);
    case RequestSnapshot(_) => SnapshotStepSnaps(w, step);
    case ReadSnapshot(_, _) => SnapshotStepSnaps(w, step);
    case Reconcile(_) => SnapshotStepSnaps(w, step);
    case _ =>
      assert RequestOk(w.page, w.page.nextId) && RequestOk(w.page, w.page.nextId + 1);
      QuietRemembers(w, step);
      QuietSnaps(w, w');
  }

  lemma UnlockRemembers(p: Page, ref: SeatRef)
    requires p.nextId !in p.net
    ensures Remembers(p, StartUnlock(p, ref))
  {
  }

  lemma ReleaseAllRemembers(p: Page, s: Showtime)
    requires p.nextId !in p.net
    ensures Remembers(p, StartReleaseAll(p, s))
  {
  }

  lemma ContinueRemembers(p: Page, ref: SeatRef, extra: set<nat>)
    requires ref in p.locks && p.nextId !in p.net
    ensures Remembers(p, ContinueLock(p, ref, extra))
  {
    assert Remembers(p, SendLock(p, ref));
  }

  /** The continuation drops the answered request and at most sends an unlock. */
  lemma ResumeRequests(p: Page, ref: SeatRef, verdict: Verdict)
    requires ref in p.locks && p.locks[ref].phase.Requesting?
    ensures var p1 := p.(net := p.net - {p.locks[ref].phase.request}); var p' := ResumeLock(p, ref, verdict);
      p'.net == p1.net || p'.net == StartUnlock(p1, ref).net
  {
    var p1 := p.(net := p.net - {p.locks[ref].phase.request});
    assert AwaitOwnUnlock(p1, ref).net == StartUnlock(p1, ref).net;
  }

  predicate SameNumbers(p: Page, p': Page) {
    p'.mountSeq == p.mountSeq && p'.sequence == p.sequence && p'.lastResponse == p.lastResponse
  }

  lemma AwaitKeepsNumbers(p: Page, ref: SeatRef)
    requires ref in p.locks
    ensures SameNumbers(p, AwaitOwnUnlock(p, ref))
  {
    assert SameNumbers(p, StartUnlock(p, ref));
  }

  lemma ResumeKeepsNumbers(p: Page, ref: SeatRef, verdict: Verdict)
    requires ref in p.locks && p.locks[ref].phase.Requesting?
    ensures SameNumbers(p, ResumeLock(p, ref, verdict))
  {
    var p1 := p.(net := p.net - {p.locks[ref].phase.request});
    var wanted := IsSelected(p, ref);
    if verdict.Granted? {
      if !(wanted && Generation(p, ref.showtime) == p.locks[ref].phase.generation) && ref.showtime !in p.releaseAlls {
        AwaitKeepsNumbers(p1, ref);
      }
    } else if !wanted && verdict.Unclear? {
      AwaitKeepsNumbers(p1, ref);
    }
  }

  lemma ResumeRemembers(p: Page, ref: SeatRef, verdict: Verdict)
    requires ref in p.locks && p.locks[ref].phase.Requesting? && p.nextId !in p.net
    requires p.locks[ref].phase.request in p.net && p.net[p.locks[ref].phase.request].status.Answered?
    ensures Remembers(p, ResumeLock(p, ref, verdict))
  {
    var p1 := p.(net := p.net - {p.locks[ref].phase.request});
    assert Remembers(p, p1) && Remembers(p, StartUnlock(p1, ref));
    ResumeRequests(p, ref, verdict);
    ResumeKeepsNumbers(p, ref, verdict);
  }

  lemma LockClickRemembers(p: Page, ref: SeatRef, limit: Option<nat>)
    requires p.nextId !in p.net && p.nextId + 1 !in p.net
    ensures Remembers(p, LockClick(p, ref, limit))
  {
    if ref !in p.locks {
      ContinueRemembers(StartLock(p, ref), ref, ExtraReleases(AddSeat(p, ref.seat), ref, limit));
    }
  }

  lemma WakeRemembers(p: Page, ref: SeatRef)
    requires ref in p.locks && !p.locks[ref].phase.Requesting? && p.nextId !in p.net
    ensures Remembers(p, WakeLock(p, ref))
  {
    if p.locks[ref].phase.AwaitReleaseAll? {
      UnlockRemembers(p, ref);
    } else {
      ContinueRemembers(p, ref, {});
    }
  }

  lemma ReleaseClickRemembers(p: Page, ref: SeatRef)
    requires p.nextId !in p.net
    ensures Remembers(p, ReleaseClick(p, ref))
  {
    UnlockRemembers(if p.showtime == Some(ref.showtime) then RemoveSeat(p, ref.seat) else p, ref);
  }

  lemma ClearClickRemembers(p: Page)
    requires p.nextId !in p.net && p.showtime.Some?
    ensures Remembers(p, ClearClick(p))
  {
    ReleaseAllRemembers(p.(selected := {}), p.showtime.value);
  }

  lemma SwitchRemembers(p: Page, next: Option<Showtime>, release: bool)
    requires p.nextId !in p.net
    ensures Remembers(p, SwitchShowtime(p, next, release))
  {
    if p.showtime.Some? { ReleaseAllRemembers(p, p.showtime.value); }
  }

  lemma QuietRemembers(w: World, step: Step)
    requires Enabled(w, step) && w.page.nextId !in w.page.net && w.page.nextId + 1 !in w.page.net
    requires IsPageStep(step)
    ensures Remembers(w.page, Apply(w, step).page)
  {
    var p := w.page;
    match step
    case DoLockClick(ref, limit) => LockClickRemembers(p, ref, limit);
    case DoReleaseClick(ref) => ReleaseClickRemembers(p, ref);
    case DoClearClick => ClearClickRemembers(p);
    case DoSwitchShowtime(next, release) => SwitchRemembers(p, next, release);
    case Resume(ref) => ResumeRemembers(p, ref, p.net[p.locks[ref].phase.request].status.verdict);
    case Wake(ref) => WakeRemembers(p, ref);
    case _ =>
  }
}
