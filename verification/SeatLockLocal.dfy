/** Every step keeps the invariant of every seat. */
module SeatLockLocal {
  import opened SeatLockPage
  import opened SeatLockWorld
  import opened SeatLockInvariant
  import opened SeatLockShape
  import opened SeatLockViews

  /** A seat of a showtime that is cleared while all its locks are released. */
  function Cleared(l: Local): Local {
    Local(false, l.held, l.leaked,
          if l.lock.Asking? then l.lock.(current := false) else l.lock,
          l.unlock,
          if l.sweep.NoSweep? then SweepAhead else l.sweep)
  }

  /** A seat the user drops: its own running operation releases it, or a new release does. */
  function Released(l: Local): Local {
    Local(false, l.held, l.leaked, l.lock,
          if l.lock.NoLock? && l.unlock.NoUnlock? then UnlockSent else l.unlock, l.sweep)
  }

  lemma DroppedOk(l: Local)
    requires LocalOk(l)
    ensures LocalOk(Cleared(l)) && LocalOk(Released(l))
  {
  }

  // ----- stretches of the lock operation -----

  /** The lock operation releases its own seat. */
  lemma OwnUnlockLocal(w: World, ref: SeatRef, q: SeatRef)
    requires Shape(w.page) && LocalOk(LocalOf(w, q)) && LocalOk(LocalOf(w, ref))
    requires LocalOf(w, ref).lock.Asking? || LocalOf(w, ref).lock.Racing?
    ensures LocalOk(LocalOf(w.(page := AwaitOwnUnlock(w.page, ref)), q))
  {
    UnlockViews(w.page, ref, q);
  }

  lemma ContinueLocal(w: World, ref: SeatRef, extra: set<nat>, q: SeatRef)
    requires Shape(w.page) && LocalOk(LocalOf(w, q))
    requires LocalOf(w, ref).lock.Parked?
    ensures LocalOk(LocalOf(w.(page := ContinueLock(w.page, ref, extra)), q))
  {
    AskViews(w.page, ref, q);
  }

  lemma ClickedLocal(w: World, ref: SeatRef, q: SeatRef)
    requires Shape(w.page) && LocalOk(LocalOf(w, q)) && ref !in w.page.locks
    requires PageGuard(w.page, DoLockClick(ref, None))
    ensures Shape(StartLock(w.page, ref))
    ensures LocalOk(LocalOf(w.(page := StartLock(w.page, ref)), q))
  {
    NewLockKeepsShape(w.page, ref);
  }

  lemma LockClickLocal(w: World, ref: SeatRef, limit: Option<nat>, q: SeatRef)
    requires Shape(w.page) && LocalOk(LocalOf(w, q))
    requires PageGuard(w.page, DoLockClick(ref, limit))
    ensures LocalOk(LocalOf(w.(page := LockClick(w.page, ref, limit)), q))
  {
    if ref in w.page.locks {
      assert LocalOf(w.(page := LockClick(w.page, ref, limit)), q) == LocalOf(w.(page := AddSeat(w.page, ref.seat)), q);
    } else {
      var extra := ExtraReleases(AddSeat(w.page, ref.seat), ref, limit);
      ClickedLocal(w, ref, q);
      ContinueLocal(w.(page := StartLock(w.page, ref)), ref, extra, q);
    }
  }

  lemma WakeLocal(w: World, ref: SeatRef, q: SeatRef)
    requires Shape(w.page) && LocalOk(LocalOf(w, q)) && LocalOk(LocalOf(w, ref))
    requires ref in w.page.locks && !w.page.locks[ref].phase.Requesting?
    ensures LocalOk(LocalOf(w.(page := WakeLock(w.page, ref)), q))
  {
    if w.page.locks[ref].phase.AwaitReleaseAll? {
      OwnUnlockLocal(w, ref, q);
    } else {
      ContinueLocal(w, ref, {}, q);
    }
  }

  /** The effect of a lock answer on its seat. */
  function Resumed(l: Local, v: Verdict): Local
    requires l.lock.Asking?
  {
    var releasing := l.(lock := Parked, unlock := if l.unlock.NoUnlock? then UnlockSent else l.unlock);
    if v.Granted? then
      if l.selected && l.lock.current then l.(lock := NoLock)
      else if !l.sweep.NoSweep? then l.(lock := Racing)
      else releasing
    else if l.selected then l.(lock := NoLock, selected := false, leaked := l.leaked || (v.Unclear? && l.held))
    else if v.Refused? then l.(lock := NoLock)
    else releasing
  }

  lemma ResumedOk(l: Local, v: Verdict)
    requires LocalOk(l) && l.lock.Asking? && l.lock.verdict == Some(v)
    ensures LocalOk(Resumed(l, v))
  {
  }

  /** The lock landed while the seat is still selected and no release-all intervened. */
  lemma ResumeKeptViews(p: Page, ref: SeatRef, q: SeatRef, held: bool, leaked: bool)
    requires Shape(p) && ref in p.locks && p.locks[ref].phase.Requesting?
    requires IsSelected(p, ref) && Generation(p, ref.showtime) == p.locks[ref].phase.generation
    ensures PageLocal(ResumeLock(p, ref, Granted), q, held, leaked) ==
      var l := PageLocal(p, q, held, leaked); if q == ref then l.(lock := NoLock) else l
  {
    AnsweredViews(p, ref, q);
  }

  /** The lock landed for a dropped seat, or raced with a release-all. */
  lemma ResumeStaleViews(p: Page, ref: SeatRef, q: SeatRef, held: bool, leaked: bool)
    requires Shape(p) && ref in p.locks && p.locks[ref].phase.Requesting?
    requires !(IsSelected(p, ref) && Generation(p, ref.showtime) == p.locks[ref].phase.generation)
    ensures PageLocal(ResumeLock(p, ref, Granted), q, held, leaked) ==
      var l := PageLocal(p, q, held, leaked); if q == ref then Resumed(l, Granted) else l
  {
    if ref.showtime in p.releaseAlls {
      AnsweredViews(p, ref, q);
      assert SweepOk(p, ref.showtime);
    } else {
      UnlockAnsweredViews(p, ref, q);
    }
  }

  /** No definite answer for a seat the user dropped meanwhile. */
  lemma ResumeUnclearViews(p: Page, ref: SeatRef, q: SeatRef, held: bool, leaked: bool)
    requires Shape(p) && ref in p.locks && p.locks[ref].phase.Requesting? && !IsSelected(p, ref)
    ensures PageLocal(ResumeLock(p, ref, Unclear), q, held, leaked) ==
      var l := PageLocal(p, q, held, leaked); if q == ref then Resumed(l, Unclear) else l
  {
    UnlockAnsweredViews(p, ref, q);
  }

  lemma FinishViews(p: Page, ref: SeatRef, q: SeatRef, held: bool, leaked: bool)
    ensures PageLocal(Finish(p, ref), q, held, leaked) ==
      var l := PageLocal(p, q, held, leaked); if q == ref then l.(lock := NoLock) else l
  {
  }

  /** A refusal, or no definite answer for a seat that is still selected. */
  lemma ResumeFailedViews(p: Page, ref: SeatRef, v: Verdict, q: SeatRef, held: bool, leaked: bool)
    requires Shape(p) && ref in p.locks && p.locks[ref].phase.Requesting?
    requires v.Refused? || (v.Unclear? && IsSelected(p, ref))
    ensures PageLocal(ResumeLock(p, ref, v), q, held, leaked) ==
      var l := PageLocal(p, q, held, leaked);
      if q == ref then l.(lock := NoLock, selected := false) else l
  {
    var p1 := p.(net := p.net - {p.locks[ref].phase.request});
    AnsweredViews(p, ref, q);
    if IsSelected(p, ref) {
      RemoveSeatViews(p1, ref, q, held, leaked);
      FinishViews(RemoveSeat(p1, ref.seat), ref, q, held, leaked);
    } else {
      FinishViews(p1, ref, q, held, leaked);
    }
  }

  lemma ResumeViews(w: World, ref: SeatRef, q: SeatRef)
    requires Shape(w.page) && Enabled(w, Resume(ref))
    requires var v := w.page.net[w.page.locks[ref].phase.request].status.verdict;
      v.Granted? || (v.Unclear? && !IsSelected(w.page, ref))
    ensures var v := w.page.net[w.page.locks[ref].phase.request].status.verdict;
      LocalOf(Apply(w, Resume(ref)), q) == if q == ref then Resumed(LocalOf(w, q), v) else LocalOf(w, q)
  {
    var v := w.page.net[w.page.locks[ref].phase.request].status.verdict;
    if v.Unclear? {
      ResumeUnclearViews(w.page, ref, q, q in w.held, q in w.leaked);
    } else if IsSelected(w.page, ref) && Generation(w.page, ref.showtime) == w.page.locks[ref].phase.generation {
      ResumeKeptViews(w.page, ref, q, q in w.held, q in w.leaked);
    } else {
      ResumeStaleViews(w.page, ref, q, q in w.held, q in w.leaked);
    }
  }

  lemma ResumeFailedLocals(w: World, ref: SeatRef, q: SeatRef)
    requires Shape(w.page) && Enabled(w, Resume(ref))
    requires var v := w.page.net[w.page.locks[ref].phase.request].status.verdict;
      v.Refused? || (v.Unclear? && IsSelected(w.page, ref))
    ensures var v := w.page.net[w.page.locks[ref].phase.request].status.verdict;
      LocalOf(Apply(w, Resume(ref)), q) == if q == ref then Resumed(LocalOf(w, q), v) else LocalOf(w, q)
  {
    var v := w.page.net[w.page.locks[ref].phase.request].status.verdict;
    ResumeFailedViews(w.page, ref, v, q, q in w.held, q in Apply(w, Resume(ref)).leaked);
  }

  lemma ResumeLocal(w: World, ref: SeatRef, q: SeatRef)
    requires Shape(w.page) && LocalOk(LocalOf(w, q))
    requires Enabled(w, Resume(ref))
    ensures LocalOk(LocalOf(Apply(w, Resume(ref)), q))
  {
    var v := w.page.net[w.page.locks[ref].phase.request].status.verdict;
    if v.Granted? || (v.Unclear? && !IsSelected(w.page, ref)) {
      ResumeViews(w, ref, q);
    } else {
      ResumeFailedLocals(w, ref, q);
    }
    if q == ref { ResumedOk(LocalOf(w, q), v); }
  }

  // ----- the user -----

  lemma RemoveSeatViews(p: Page, ref: SeatRef, q: SeatRef, held: bool, leaked: bool)
    requires p.showtime == Some(ref.showtime)
    ensures PageLocal(RemoveSeat(p, ref.seat), q, held, leaked) ==
      var l := PageLocal(p, q, held, leaked); if q == ref then l.(selected := false) else l
  {
  }

  lemma StartReleaseViews(p: Page, ref: SeatRef, q: SeatRef, held: bool, leaked: bool)
    requires Shape(p) && ref !in p.locks
    ensures PageLocal(StartUnlock(p, ref), q, held, leaked) ==
      var l := PageLocal(p, q, held, leaked); if q == ref then Released(l).(selected := l.selected) else l
  {
    UnlockViews(p, ref, q);
  }

  lemma UnlockKeepsSelection(p: Page, ref: SeatRef)
    ensures StartUnlock(RemoveSeat(p, ref.seat), ref) == RemoveSeat(StartUnlock(p, ref), ref.seat)
  {
  }

  lemma ReleaseClickViews(p: Page, ref: SeatRef, q: SeatRef, held: bool, leaked: bool)
    requires Shape(p)
    ensures PageLocal(ReleaseClick(p, ref), q, held, leaked) ==
      var l := PageLocal(p, q, held, leaked); if q == ref then Released(l) else l
  {
    if ref in p.locks {
      if p.showtime == Some(ref.showtime) { RemoveSeatViews(p, ref, q, held, leaked); }
    } else {
      StartReleaseViews(p, ref, q, held, leaked);
      if p.showtime == Some(ref.showtime) {
        RemoveSeatViews(StartUnlock(p, ref), ref, q, held, leaked);
        UnlockKeepsSelection(p, ref);
      }
    }
  }

  lemma ReleaseClickLocal(w: World, ref: SeatRef, q: SeatRef)
    requires Shape(w.page) && LocalOk(LocalOf(w, q))
    ensures LocalOk(LocalOf(w.(page := ReleaseClick(w.page, ref)), q))
  {
    ReleaseClickViews(w.page, ref, q, q in w.held, q in w.leaked);
    DroppedOk(LocalOf(w, q));
  }

  lemma ReleaseAllLocal(w: World, next: Option<Showtime>, q: SeatRef)
    requires Shape(w.page) && w.page.showtime.Some?
    ensures LocalOf(w.(page := StartReleaseAll(w.page, w.page.showtime.value).(showtime := next, selected := {})), q) ==
      if w.page.showtime == Some(q.showtime) then Cleared(LocalOf(w, q)) else LocalOf(w, q)
  {
    ReleaseAllViews(w.page, w.page.showtime.value, q);
  }

  lemma ClearClickLocal(w: World, q: SeatRef)
    requires Shape(w.page) && LocalOk(LocalOf(w, q)) && w.page.showtime.Some?
    ensures LocalOk(LocalOf(w.(page := ClearClick(w.page)), q))
  {
    ReleaseAllLocal(w, w.page.showtime, q);
    DroppedOk(LocalOf(w, q));
    assert ClearClick(w.page)
        == StartReleaseAll(w.page, w.page.showtime.value).(showtime := w.page.showtime, selected := {});
  }

  /** A seat whose showtime is released while it stays selected. */
  function Swept(l: Local): Local {
    Cleared(l).(selected := l.selected)
  }

  lemma KeptOk(l: Local)
    requires LocalOk(l) && (l.selected ==> !l.lock.NoLock?)
    ensures LocalOk(Swept(l)) && LocalOk(l.(selected := false))
  {
  }

  /** The showtime stays and is released all the same. */
  lemma SwitchStays(w: World, q: SeatRef)
    requires Shape(w.page) && w.page.showtime.Some?
    ensures LocalOf(w.(page := SwitchShowtime(w.page, w.page.showtime, true)), q) ==
      if w.page.showtime == Some(q.showtime) then Swept(LocalOf(w, q)) else LocalOf(w, q)
  {
    ReleaseAllViews(w.page, w.page.showtime.value, q);
  }

  /** The showtime is left without a release. */
  lemma SwitchLeaves(w: World, next: Option<Showtime>, q: SeatRef)
    requires next != w.page.showtime
    ensures LocalOf(w.(page := SwitchShowtime(w.page, next, false)), q) == LocalOf(w, q).(selected := false)
  {
  }

  lemma SwitchReleases(w: World, next: Option<Showtime>, q: SeatRef)
    requires Shape(w.page) && w.page.showtime.Some? && next != w.page.showtime
    ensures LocalOf(w.(page := SwitchShowtime(w.page, next, true)), q) ==
      if w.page.showtime == Some(q.showtime) then Cleared(LocalOf(w, q)) else LocalOf(w, q)
  {
    ReleaseAllLocal(w, next, q);
  }

  lemma SwitchLocal(w: World, next: Option<Showtime>, release: bool, q: SeatRef)
    requires Shape(w.page) && LocalOk(LocalOf(w, q)) && SwitchGuard(w.page, next, release)
    ensures LocalOk(LocalOf(w.(page := SwitchShowtime(w.page, next, release)), q))
  {
    var l := LocalOf(w, q);
    if w.page.showtime.None? {
      assert LocalOf(w.(page := SwitchShowtime(w.page, next, release)), q) == l;
    } else if next == w.page.showtime {
      if release {
        SwitchStays(w, q);
        if w.page.showtime == Some(q.showtime) { KeptOk(l); }
      } else {
        assert SwitchShowtime(w.page, next, release) == w.page;
      }
    } else if release {
      SwitchReleases(w, next, q);
      DroppedOk(l);
    } else {
      SwitchLeaves(w, next, q);
      KeptOk(l);
    }
  }

  // ----- the server -----

  lemma ApplyLockLocal(w: World, id: nat, verdict: Verdict, took: bool, q: SeatRef)
    requires Shape(w.page) && LocalOk(LocalOf(w, q))
    requires Enabled(w, ApplyLock(id, verdict, took))
    ensures LocalOk(LocalOf(Apply(w, ApplyLock(id, verdict, took)), q))
  {
    StatusViews(w.page, id, Applied(verdict), q);
    assert RequestOk(w.page, id);
  }

  lemma ApplyUnlockLocal(w: World, id: nat, released: bool, q: SeatRef)
    requires Shape(w.page) && LocalOk(LocalOf(w, q))
    requires Enabled(w, ApplyUnlock(id, released))
    ensures LocalOk(LocalOf(Apply(w, ApplyUnlock(id, released)), q))
  {
    StatusViews(w.page, id, Applied(if released then Granted else Refused), q);
    assert RequestOk(w.page, id);
  }

  lemma StartSweepLocal(w: World, id: nat, q: SeatRef)
    requires Shape(w.page) && LocalOk(LocalOf(w, q))
    requires Enabled(w, StartSweep(id))
    ensures LocalOk(LocalOf(Apply(w, StartSweep(id)), q))
  {
    StatusViews(w.page, id, Releasing(HeldOf(w, w.page.net[id].target.showtime)), q);
    assert RequestOk(w.page, id);
    assert q in w.held && q.showtime == w.page.net[id].target.showtime ==> q.seat in HeldOf(w, q.showtime);
  }

  lemma SweepSeatLocal(w: World, id: nat, seat: SeatKey, released: bool, q: SeatRef)
    requires Shape(w.page) && LocalOk(LocalOf(w, q))
    requires Enabled(w, SweepSeat(id, seat, released))
    ensures LocalOk(LocalOf(Apply(w, SweepSeat(id, seat, released)), q))
  {
    StatusViews(w.page, id, Releasing(w.page.net[id].status.todo - {seat}), q);
    assert RequestOk(w.page, id);
  }

  lemma FinishSweepLocal(w: World, id: nat, q: SeatRef)
    requires Shape(w.page) && LocalOk(LocalOf(w, q))
    requires Enabled(w, FinishSweep(id))
    ensures LocalOk(LocalOf(Apply(w, FinishSweep(id)), q))
  {
    StatusViews(w.page, id, Applied(Granted), q);
    assert RequestOk(w.page, id);
  }

  lemma AnswerLocal(w: World, id: nat, status: Status, q: SeatRef)
    requires Shape(w.page) && LocalOk(LocalOf(w, q)) && id in w.page.net
    requires w.page.net[id].status.Applied? || (w.page.net[id].status.Sent? && w.page.net[id].target.LockSeat?)
    requires status == Answered(if w.page.net[id].status.Applied? then w.page.net[id].status.verdict else Refused)
    ensures LocalOk(LocalOf(w.(page := SetStatus(w.page, id, status)), q))
  {
    StatusViews(w.page, id, status, q);
    assert RequestOk(w.page, id);
  }

  lemma EndUnlockLocal(w: World, ref: SeatRef, q: SeatRef)
    requires Shape(w.page) && LocalOk(LocalOf(w, q))
    requires Enabled(w, EndUnlock(ref))
    ensures LocalOk(LocalOf(Apply(w, EndUnlock(ref)), q))
  {
    SettleUnlockViews(w.page, ref, q);
  }

  lemma EndReleaseAllLocal(w: World, s: Showtime, q: SeatRef)
    requires Shape(w.page) && LocalOk(LocalOf(w, q))
    requires Enabled(w, EndReleaseAll(s))
    ensures LocalOk(LocalOf(Apply(w, EndReleaseAll(s)), q))
  {
    SettleReleaseAllViews(w.page, s, q);
  }
}
