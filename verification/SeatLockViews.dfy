/** How each stretch of the controller changes what the protocol knows about one seat. */
module SeatLockViews {
  import opened SeatLockPage
  import opened SeatLockWorld
  import opened SeatLockInvariant
  import opened SeatLockShape

  /** The facts about the requests of seat q and of its showtime. */
  lemma Facts(p: Page, q: SeatRef)
    requires Shape(p)
    ensures LockOk(p, q) && UnlockOk(p, q) && SweepOk(p, q.showtime) && RequestOk(p, p.nextId)
    ensures p.nextId !in p.net
  {
    assert LockOk(p, q) && UnlockOk(p, q) && SweepOk(p, q.showtime) && RequestOk(p, p.nextId);
  }

  lemma UnlockKeepsOthers(p: Page, ref: SeatRef, q: SeatRef)
    requires Shape(p)
    ensures LockViewOf(StartUnlock(p, ref), q) == LockViewOf(p, q)
    ensures SweepViewOf(StartUnlock(p, ref), q) == SweepViewOf(p, q)
  {
    Facts(p, q);
  }

  lemma UnlockViews(p: Page, ref: SeatRef, q: SeatRef)
    requires Shape(p)
    ensures var p' := StartUnlock(p, ref);
      && LockViewOf(p', q) == LockViewOf(p, q)
      && SweepViewOf(p', q) == SweepViewOf(p, q)
      && UnlockViewOf(p', q) == if q == ref && ref !in p.unlocks then UnlockSent else UnlockViewOf(p, q)
  {
    Facts(p, q);
    UnlockKeepsOthers(p, ref, q);
  }

  lemma ReleaseAllViews(p: Page, s: Showtime, q: SeatRef)
    requires Shape(p)
    ensures var p' := StartReleaseAll(p, s);
      && LockViewOf(p', q) == (if q.showtime == s && LockViewOf(p, q).Asking?
                               then LockViewOf(p, q).(current := false) else LockViewOf(p, q))
      && SweepViewOf(p', q) == (if q.showtime == s && s !in p.releaseAlls then SweepAhead else SweepViewOf(p, q))
      && UnlockViewOf(p', q) == UnlockViewOf(p, q)
  {
    Facts(p, q);
  }

  lemma StatusViews(p: Page, id: nat, status: Status, q: SeatRef)
    requires Shape(p) && id in p.net
    ensures var p' := SetStatus(p, id, status);
      && (LockViewOf(p', q) == if p.net[id].target == LockSeat(q)
            then Asking(LockViewOf(p, q).Asking? && LockViewOf(p, q).current, VerdictIn(p'.net, id)) else LockViewOf(p, q))
      && (UnlockViewOf(p', q) == if p.net[id].target == UnlockSeat(q)
            then if status.Sent? then UnlockSent else UnlockDone else UnlockViewOf(p, q))
      && (SweepViewOf(p', q) == if p.net[id].target == UnlockAll(q.showtime)
            then match status
                 case Sent => SweepAhead
                 case Releasing(todo) => if q.seat in todo then SweepAhead else SweepPast
                 case _ => SweepPast
            else SweepViewOf(p, q))
  {
    Facts(p, q);
    assert RequestOk(p, id);
  }

  lemma SettleUnlockViews(p: Page, ref: SeatRef, q: SeatRef)
    requires Shape(p) && ref in p.unlocks
    ensures var p' := SettleUnlock(p, ref);
      && LockViewOf(p', q) == LockViewOf(p, q)
      && SweepViewOf(p', q) == SweepViewOf(p, q)
      && UnlockViewOf(p', q) == if q == ref then NoUnlock else UnlockViewOf(p, q)
  {
    Facts(p, q); Facts(p, ref);
  }

  lemma SettleReleaseAllViews(p: Page, s: Showtime, q: SeatRef)
    requires Shape(p) && s in p.releaseAlls
    ensures var p' := SettleReleaseAll(p, s);
      && LockViewOf(p', q) == LockViewOf(p, q)
      && UnlockViewOf(p', q) == UnlockViewOf(p, q)
      && SweepViewOf(p', q) == if q.showtime == s then NoSweep else SweepViewOf(p, q)
  {
    Facts(p, q); assert SweepOk(p, s);
  }

  /** Dropping the answered lock request of seat ref. */
  lemma AnsweredViews(p: Page, ref: SeatRef, q: SeatRef)
    requires Shape(p) && ref in p.locks && p.locks[ref].phase.Requesting?
    ensures var p' := p.(net := p.net - {p.locks[ref].phase.request});
      && (q != ref ==> LockViewOf(p', q) == LockViewOf(p, q))
      && UnlockViewOf(p', q) == UnlockViewOf(p, q)
      && SweepViewOf(p', q) == SweepViewOf(p, q)
  {
    Facts(p, q); Facts(p, ref);
  }

  lemma AskViews(p: Page, ref: SeatRef, q: SeatRef)
    requires Shape(p) && ref in p.locks
    ensures var p' := SendLock(p, ref);
      && LockViewOf(p', q) == (if q == ref then Asking(true, None) else LockViewOf(p, q))
      && UnlockViewOf(p', q) == UnlockViewOf(p, q)
      && SweepViewOf(p', q) == SweepViewOf(p, q)
  {
    Facts(p, q); 
  }

  /** The lock operation of seat ref answers its request with a release of the same seat. */
  lemma UnlockAnsweredViews(p: Page, ref: SeatRef, q: SeatRef)
    requires Shape(p) && ref in p.locks && p.locks[ref].phase.Requesting?
    ensures var p' := AwaitOwnUnlock(p.(net := p.net - {p.locks[ref].phase.request}), ref);
      && LockViewOf(p', q) == (if q == ref then Parked else LockViewOf(p, q))
      && SweepViewOf(p', q) == SweepViewOf(p, q)
      && UnlockViewOf(p', q) == if q == ref && ref !in p.unlocks then UnlockSent else UnlockViewOf(p, q)
  {
    Facts(p, ref);
    assert RequestOk(p, p.locks[ref].phase.request);
    UnlockCommutes(p, ref, p.locks[ref].phase.request);
    UnlockKeepsShape(p, ref);
    UnlockViews(p, ref, q);
    AnsweredViews(StartUnlock(p, ref), ref, q);
  }
}
