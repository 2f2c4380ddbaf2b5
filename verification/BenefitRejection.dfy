/** Rejecting a cancellation request: what the restored tickets are entitled to afterwards. */
module BenefitRejection {
  import opened BenefitRepair
  import opened BenefitRestore
  import opened BenefitRights

  /** The item is among ids and active again. */
  predicate IsRestored(db: Db, ids: seq<Id>, x: Item) {
    x in db.items && x.id in ids && x.status.ItemActive?
  }

  lemma RestoreRestores(db: Db, ids: seq<Id>, rights: seq<Right>, t: seq<Right>)
    requires UniqueIds(db.items) && Indexed(rights) && Restore(db, ids, rights) == Ok(t)
    ensures var items := ItemsIn(db.items, ids); Restored(db, items, ShowtimesOf(items), rights, t)
  {
    var items := ItemsIn(db.items, ids);
    EachRestored(db, Sorted(ShowtimesOf(items)), items, rights, t);
    assert Seen(Sorted(ShowtimesOf(items))) == ShowtimesOf(items);
  }

  lemma RestoredItem(db: Db, ids: seq<Id>, x: Item)
    requires UniqueIds(db.items) && IsRestored(db, ids, x)
    ensures FindItem(ItemsIn(db.items, ids), x.id) == Some(x)
    ensures x.showtime in ShowtimesOf(ItemsIn(db.items, ids))
  {
    assert x in ItemsIn(db.items, ids);
  }

  /** The stored right is still valid: its run is the latest, or its benefit is still configured for the tier. */
  predicate StillValid(db: Db, x: Item, r: Right) {
    match r.kind
    case Limited => var run := LatestLiveRun(db.runs, x.showtime); run.Some? && r.run == Some(run.value.id)
    case Included => r.source.Configuration? && StillIncluded(db, x.showtime, r.identity, x.tier)
  }

  function CurrentCopy(db: Db, x: Item, r: Right): string
    requires StillValid(db, x, r)
  {
    if r.kind.Limited? then r.copy else FindBenefit(CurrentIncluded(db, x.showtime), r.identity).value.copy
  }

  /** A pending right of a restored item returns exactly when it is still valid, otherwise it says why not. */
  lemma PendingRightIsDecided(db: Db, ids: seq<Id>, rights: seq<Right>, t: seq<Right>, i: nat, x: Item)
    requires UniqueIds(db.items) && Indexed(rights) && Restore(db, ids, rights) == Ok(t)
    requires i < |rights| && IsRestored(db, ids, x) && rights[i].item == x.id && PendingRow(rights[i])
    ensures |rights| <= |t|
    ensures StillValid(db, x, rights[i]) ==>
              t[i] == rights[i].(state := Active, reason := None, copy := CurrentCopy(db, x, rights[i]))
    ensures !StillValid(db, x, rights[i]) ==>
              t[i] == rights[i].(reason := Some(if rights[i].kind.Limited? then REPLACED_BY_LIVE_RUN else CONFIGURATION_CHANGED))
  {
    RestoreRestores(db, ids, rights, t);
    RestoredItem(db, ids, x);
  }

  /** Every other row keeps its place and its content. */
  lemma OtherRowsUntouched(db: Db, ids: seq<Id>, rights: seq<Right>, t: seq<Right>, i: nat)
    requires UniqueIds(db.items) && Indexed(rights) && Restore(db, ids, rights) == Ok(t)
    requires i < |rights| && (!PendingRow(rights[i]) || forall x | IsRestored(db, ids, x) :: x.id != rights[i].item)
    ensures |rights| <= |t| && t[i] == rights[i]
  {
    RestoreRestores(db, ids, rights, t);
    var x := FindItem(ItemsIn(db.items, ids), rights[i].item);
    assert x.Some? ==> IsRestored(db, ids, x.value);
  }

  lemma SettledNotPending(db: Db, items: seq<Item>, showtimes: set<Id>, r: Right, x: Item)
    requires FindItem(items, r.item) == Some(x) && x.showtime in showtimes
    ensures !PendingRow(Settle(db, items, showtimes, r))
  {
  }

  lemma SettleKeepsItem(db: Db, items: seq<Item>, showtimes: set<Id>, r: Right)
    ensures Settle(db, items, showtimes, r).item == r.item
  {
  }

  lemma AddedNotPending(db: Db, items: seq<Item>, showtimes: set<Id>, r: Right)
    requires IsAdded(db, items, showtimes, r)
    ensures !PendingRow(r)
  {
  }

  lemma RowNotPending(db: Db, items: seq<Item>, rights: seq<Right>, t: seq<Right>, i: nat, x: Item)
    requires Restored(db, items, ShowtimesOf(items), rights, t)
    requires i < |t| && FindItem(items, t[i].item) == Some(x)
    ensures !PendingRow(t[i])
  {
    if i < |rights| {
      SettleKeepsItem(db, items, ShowtimesOf(items), rights[i]);
      SettledNotPending(db, items, ShowtimesOf(items), rights[i], x);
    } else {
      AddedNotPending(db, items, ShowtimesOf(items), t[i]);
    }
  }

  /** Nothing of a restored item stays cancellation_pending. */
  lemma NothingLeftPending(db: Db, ids: seq<Id>, rights: seq<Right>, t: seq<Right>, r: Right, x: Item)
    requires UniqueIds(db.items) && Indexed(rights) && Restore(db, ids, rights) == Ok(t)
    requires r in t && IsRestored(db, ids, x) && r.item == x.id
    ensures !PendingRow(r)
  {
    RestoreRestores(db, ids, rights, t);
    var i :| 0 <= i < |t| && t[i] == r;
    RestoredItem(db, ids, x);
    RowNotPending(db, ItemsIn(db.items, ids), rights, t, i, x);
  }

  /** A repair run of any showtime finds nothing missing for a restored item. */
  lemma RepairFindsNothing(db: Db, ids: seq<Id>, rights: seq<Right>, t: seq<Right>, s: Id, c: Candidate)
    requires UniqueIds(db.items) && Indexed(rights) && Restore(db, ids, rights) == Ok(t)
    requires c in Candidates(db, t, s)
    ensures !IsRestored(db, ids, c.item)
  {
    RestoreRestores(db, ids, rights, t);
    assert c.item in ItemsIn(db.items, ids) ==> HasItsRights(db, c.item, t);
  }

  lemma RestoreKeepsIndex(db: Db, ids: seq<Id>, rights: seq<Right>, t: seq<Right>)
    requires UniqueIds(db.items) && Indexed(rights) && Restore(db, ids, rights) == Ok(t)
    ensures Indexed(t)
  {
    RestoreRestores(db, ids, rights, t);
  }

  // ----- when the transaction commits -----

  lemma FewerCollide(db: Db, items: seq<Item>, a: set<Id>, b: set<Id>, r: Right, q: Right)
    requires a <= b && !Collide(r, q)
    ensures Collide(Settle(db, items, a, r), Settle(db, items, a, q)) ==>
              Collide(Settle(db, items, b, r), Settle(db, items, b, q))
  {
    if r.item == q.item {
      var x := FindItem(items, r.item);
      if x.Some? && x.value.showtime in a { assert x.value.showtime in b; }
    }
  }

  /** An earlier showtime's table is free of collisions when the last one's is. */
  lemma FewerStillIndexed(db: Db, items: seq<Item>, a: set<Id>, b: set<Id>, rights: seq<Right>)
    requires a <= b && Indexed(rights) && Indexed(Settled(db, items, b, rights))
    ensures Indexed(Settled(db, items, a, rights))
  {
    var t, u := Settled(db, items, a, rights), Settled(db, items, b, rights);
    forall i, j | 0 <= i < j < |t| ensures !Collide(t[i], t[j]) {
      assert !Collide(u[i], u[j]);
      FewerCollide(db, items, a, b, rights[i], rights[j]);
    }
  }

  lemma AddedElsewhere(db: Db, items: seq<Item>, done: set<Id>, s: Id, r: Right)
    requires UniqueIds(items) && IsAdded(db, items, done, r) && s !in done
    ensures var x := FindItem(items, r.item); x.None? || x.value.showtime != s
  {
  }

  lemma OwnRowsAreStored(db: Db, s: Id, items: seq<Item>, done: set<Id>, rights: seq<Right>, t: seq<Right>, i: nat)
    requires UniqueIds(items) && Restored(db, items, done, rights, t) && s !in done && i < |t|
    ensures var x := FindItem(items, t[i].item); x.Some? && x.value.showtime == s ==> i < |rights|
  {
    if i >= |rights| { AddedElsewhere(db, items, done, s, t[i]); }
  }

  lemma CollidingRowsSettle(db: Db, s: Id, items: seq<Item>, r: Right, q: Right)
    requires !Collide(r, q)
    ensures Collide(Settle(db, items, {s}, r), Settle(db, items, {s}, q)) ==>
              var x := FindItem(items, q.item); r.item == q.item && x.Some? && x.value.showtime == s
  {
    var x := FindItem(items, q.item);
    if x.None? || x.value.showtime != s {
      assert Settle(db, items, {s}, q) == q;
      if r.item == q.item { assert Settle(db, items, {s}, r) == r; }
    }
  }

  /** A collision that reactivating the last showtime makes is one between stored rights. */
  lemma NewCollision(db: Db, s: Id, items: seq<Item>, done: set<Id>, rights: seq<Right>, t: seq<Right>, i: nat, j: nat)
    requires UniqueIds(items) && Restored(db, items, done, rights, t) && s !in done && i < j < |t|
    ensures Collide(Settle(db, items, {s}, t[i]), Settle(db, items, {s}, t[j])) ==>
              j < |rights| && Collide(Settle(db, items, done + {s}, rights[i]), Settle(db, items, done + {s}, rights[j]))
  {
    assert !Collide(t[i], t[j]);
    OwnRowsAreStored(db, s, items, done, rights, t, j);
    CollidingRowsSettle(db, s, items, t[i], t[j]);
    if Collide(Settle(db, items, {s}, t[i]), Settle(db, items, {s}, t[j])) {
      SettleTwice(db, items, done, {s}, rights[i]);
      SettleTwice(db, items, done, {s}, rights[j]);
    }
  }

  lemma ReactivationFits(db: Db, s: Id, items: seq<Item>, done: set<Id>, rights: seq<Right>, t: seq<Right>)
    requires UniqueIds(items) && Restored(db, items, done, rights, t) && s !in done
    requires Indexed(Settled(db, items, done + {s}, rights))
    ensures Indexed(Reactivated(db, s, ItemsOf(items, s), t))
  {
    var u := Reactivated(db, s, ItemsOf(items, s), t);
    var all := Settled(db, items, done + {s}, rights);
    forall i, j | 0 <= i < j < |u| ensures !Collide(u[i], u[j]) {
      assert j < |rights| ==> !Collide(all[i], all[j]);
      NewCollision(db, s, items, done, rights, t, i, j);
      ReactivatedRow(db, s, items, t[i]);
      ReactivatedRow(db, s, items, t[j]);
    }
  }

  lemma {:induction false} EachSucceeds(db: Db, showtimes: seq<Id>, items: seq<Item>, rights: seq<Right>)
    requires UniqueIds(items) && Indexed(rights)
    requires forall i, j | 0 <= i < j < |showtimes| :: showtimes[i] != showtimes[j]
    requires forall s <- showtimes :: s in db.showtimes
    requires Indexed(Settled(db, items, Seen(showtimes), rights))
    ensures RestoreEach(db, showtimes, items, rights).Ok?
    decreases |showtimes|
  {
    if showtimes != [] {
      var n := |showtimes| - 1;
      var done := Seen(showtimes[..n]);
      assert done + {showtimes[n]} == Seen(showtimes);
      FewerStillIndexed(db, items, done, Seen(showtimes), rights);
      EachSucceeds(db, showtimes[..n], items, rights);
      var before := RestoreEach(db, showtimes[..n], items, rights).value;
      EachRestored(db, showtimes[..n], items, rights, before);
      ReactivationFits(db, showtimes[n], items, done, rights, before);
    }
  }

  lemma {:induction false} EachExists(db: Db, showtimes: seq<Id>, items: seq<Item>, rights: seq<Right>, k: nat)
    requires RestoreEach(db, showtimes, items, rights).Ok?
    requires k < |showtimes| && ItemsOf(items, showtimes[k]) != []
    ensures showtimes[k] in db.showtimes
    decreases |showtimes|
  {
    var n := |showtimes| - 1;
    if k == n {
      var t := RestoreEach(db, showtimes[..n], items, rights).value;
      assert RestoreShowtime(db, showtimes[n], ItemsOf(items, showtimes[n]), t).Ok?;
    } else {
      EachExists(db, showtimes[..n], items, rights, k);
    }
  }

  lemma CommittedShowtimesExist(db: Db, ids: seq<Id>, rights: seq<Right>, x: Item)
    requires Restore(db, ids, rights).Ok? && x in ItemsIn(db.items, ids)
    ensures x.showtime in db.showtimes
  {
    var items := ItemsIn(db.items, ids);
    var showtimes := Sorted(ShowtimesOf(items));
    assert x.showtime in showtimes;
    var k :| 0 <= k < |showtimes| && showtimes[k] == x.showtime;
    assert x in ItemsOf(items, showtimes[k]);
    EachExists(db, showtimes, items, rights, k);
  }

  lemma FittingRightsCommit(db: Db, ids: seq<Id>, rights: seq<Right>)
    requires UniqueIds(db.items) && Indexed(rights)
    requires var items := ItemsIn(db.items, ids);
      (forall x <- items :: x.showtime in db.showtimes) && Indexed(Settled(db, items, ShowtimesOf(items), rights))
    ensures Restore(db, ids, rights).Ok?
  {
    var items := ItemsIn(db.items, ids);
    var showtimes := Sorted(ShowtimesOf(items));
    assert Seen(showtimes) == ShowtimesOf(items);
    forall i, j | 0 <= i < j < |showtimes| ensures showtimes[i] != showtimes[j] { LocksAscend(ShowtimesOf(items), i, j); }
    EachSucceeds(db, showtimes, items, rights);
  }

  /**
   The restoring transaction commits exactly when the showtimes exist and the
   rights that are still valid do not collide, with each other or with a right
   the table already holds.
   */
  lemma RestoreCommitsExactly(db: Db, ids: seq<Id>, rights: seq<Right>)
    requires UniqueIds(db.items) && Indexed(rights)
    ensures var items := ItemsIn(db.items, ids);
      Restore(db, ids, rights).Ok? <==>
      (forall x <- items :: x.showtime in db.showtimes) && Indexed(Settled(db, items, ShowtimesOf(items), rights))
  {
    var items := ItemsIn(db.items, ids);
    var all := Settled(db, items, ShowtimesOf(items), rights);
    if Restore(db, ids, rights).Ok? {
      var t := Restore(db, ids, rights).value;
      RestoreRestores(db, ids, rights, t);
      assert all == t[..|rights|];
      forall x <- items ensures x.showtime in db.showtimes { CommittedShowtimesExist(db, ids, rights, x); }
    }
    if (forall x <- items :: x.showtime in db.showtimes) && Indexed(all) { FittingRightsCommit(db, ids, rights); }
  }

  // ----- a request and its rejection -----

  /** Nothing of the item is pending and no configured right is missing. */
  ghost predicate AtRest(db: Db, items: seq<Item>, rights: seq<Right>) {
    && (forall i | 0 <= i < |rights| :: !IsPending(rights[i], items))
    && forall x <- items :: HasItsRights(db, x, rights)
  }

  lemma {:induction false} EachIdle(db: Db, showtimes: seq<Id>, items: seq<Item>, rights: seq<Right>)
    requires UniqueIds(items) && Indexed(rights) && AtRest(db, items, rights)
    requires forall s <- showtimes :: s in db.showtimes
    ensures RestoreEach(db, showtimes, items, rights) == Ok(rights)
    decreases |showtimes|
  {
    if showtimes != [] {
      var n := |showtimes| - 1;
      var s := showtimes[n];
      EachIdle(db, showtimes[..n], items, rights);
      var own := ItemsOf(items, s);
      var t := Reactivated(db, s, own, rights);
      forall i | 0 <= i < |t| ensures t[i] == rights[i] { ReactivatedRow(db, s, items, rights[i]); }
      assert t == rights;
      forall b <- CurrentIncluded(db, s) ensures Served(own, b, rights) {
        forall x <- own | x.tier in b.tiers ensures HasLive(rights, x.id, b.identity) { assert HasItsRights(db, x, rights); }
      }
      IssueAllIdle(rights, s, own, CurrentIncluded(db, s));
    }
  }

  /** Restoring the same items again changes nothing. */
  lemma RestoreAgain(db: Db, ids: seq<Id>, rights: seq<Right>, t: seq<Right>)
    requires UniqueIds(db.items) && Indexed(rights) && Restore(db, ids, rights) == Ok(t)
    ensures Restore(db, ids, t) == Ok(t)
  {
    var items := ItemsIn(db.items, ids);
    RestoreRestores(db, ids, rights, t);
    RestoreCommitsExactly(db, ids, rights);
    forall i | 0 <= i < |t| ensures !IsPending(t[i], items) {
      var x := FindItem(items, t[i].item);
      if x.Some? { NothingLeftPending(db, ids, rights, t, t[i], x.value); }
    }
    assert AtRest(db, items, t);
    EachIdle(db, Sorted(ShowtimesOf(items)), items, t);
  }

  /** The row a request revokes comes back as it was when it is rejected. */
  predicate ComesBack(db: Db, items: seq<Item>, r: Right) {
    var x := FindItem(items, r.item);
    x.Some? ==>
      if r.state.Active? then StillValid(db, x.value, r) && r.copy == CurrentCopy(db, x.value, r) && r.reason.None?
      else !PendingRow(r)
  }

  lemma DecideIsValidity(db: Db, items: seq<Item>, x: Item, r: Right)
    requires FindItem(items, r.item) == Some(x)
    ensures Decide(db, x.showtime, items, r) ==
            if StillValid(db, x, r) then r.(state := Active, reason := None, copy := CurrentCopy(db, x, r))
            else r.(reason := Some(if r.kind.Limited? then REPLACED_BY_LIVE_RUN else CONFIGURATION_CHANGED))
  {
  }

  lemma RowComesBack(db: Db, items: seq<Item>, ids: set<Id>, r: Right)
    requires r.item in ids ==> FindItem(items, r.item).Some?
    requires FindItem(items, r.item).Some? ==> r.item in ids && FindItem(items, r.item).value.showtime in ShowtimesOf(items)
    ensures Settle(db, items, ShowtimesOf(items), RevokeRow(ids, r)) == r <==> ComesBack(db, items, r)
  {
    var x := FindItem(items, r.item);
    if x.Some? { DecideIsValidity(db, items, x.value, RevokeRow(ids, r)); }
  }

  /** No row is added for an item that had its rights. */
  lemma NoneAdded(db: Db, items: seq<Item>, rights: seq<Right>, t: seq<Right>, i: nat)
    requires Indexed(t) && Extends(rights, t) && |rights| <= i < |t|
    requires forall x <- items :: HasItsRights(db, x, rights)
    ensures !IsAdded(db, items, ShowtimesOf(items), t[i])
  {
    forall x, b | x in items && Entitled(db, x, b) ensures !IsIssueOf(x.showtime, x, b, t[i]) {
      assert HasItsRights(db, x, rights);
      var j :| 0 <= j < |rights| && IsLiveIncluded(rights[j]) && rights[j].item == x.id && rights[j].identity == b.identity;
      assert !Collide(t[j], t[i]);
    }
  }

  lemma GivesBack(db: Db, ids: seq<Id>, revoked: seq<Right>, rights: seq<Right>)
    requires UniqueIds(db.items) && Indexed(revoked) && Indexed(rights)
    requires var items := ItemsIn(db.items, ids);
      && (forall x <- items :: x.showtime in db.showtimes && HasItsRights(db, x, rights))
      && Settled(db, items, ShowtimesOf(items), revoked) == rights
    ensures Restore(db, ids, revoked) == Ok(rights)
  {
    var items := ItemsIn(db.items, ids);
    RestoreCommitsExactly(db, ids, revoked);
    var t := Restore(db, ids, revoked).value;
    RestoreRestores(db, ids, revoked, t);
    assert Extends(rights, t);
    if |t| > |rights| { NoneAdded(db, items, rights, t, |rights|); }
    assert |t| == |rights|;
    assert t == rights;
  }

  /**
   Requesting a cancellation and having it rejected gives back the table exactly
   when every active right of the items is still valid under its current copy,
   none was pending before, and none was missing.
   */
  lemma RejectionUndoesRequest(db: Db, ids: seq<Id>, rights: seq<Right>)
    requires UniqueIds(db.items) && Indexed(rights)
    requires forall id <- ids :: FindItem(ItemsIn(db.items, ids), id).Some?
    requires forall x <- ItemsIn(db.items, ids) :: x.showtime in db.showtimes
    ensures var items := ItemsIn(db.items, ids);
      Restore(db, ids, Revoke(rights, set id <- ids)) == Ok(rights) <==>
      (forall i | 0 <= i < |rights| :: ComesBack(db, items, rights[i])) && (forall x <- items :: HasItsRights(db, x, rights))
  {
    var items := ItemsIn(db.items, ids);
    var idset := set id <- ids;
    var revoked := Revoke(rights, idset);
    RevokeKeepsIndex(rights, idset);
    forall i | 0 <= i < |rights|
      ensures Settle(db, items, ShowtimesOf(items), revoked[i]) == rights[i] <==> ComesBack(db, items, rights[i])
    {
      RowComesBack(db, items, idset, rights[i]);
    }
    if Restore(db, ids, revoked) == Ok(rights) { RestoreRestores(db, ids, revoked, rights); }
    if (forall i | 0 <= i < |rights| :: ComesBack(db, items, rights[i])) && (forall x <- items :: HasItsRights(db, x, rights)) {
      assert Settled(db, items, ShowtimesOf(items), revoked) == rights;
      GivesBack(db, ids, revoked, rights);
    }
  }

  lemma RevokeKeepsIndex(rights: seq<Right>, ids: set<Id>)
    requires Indexed(rights)
    ensures Indexed(Revoke(rights, ids))
  {
    var t := Revoke(rights, ids);
    forall i, j | 0 <= i < j < |t| ensures !Collide(t[i], t[j]) {
      assert !Collide(rights[i], rights[j]);
    }
  }

  // ----- in the terms of the tables -----

  /** The restore orders a run by its creation and takes the newest completed live one of the showtime. */
  lemma LatestRunIs(runs: seq<LiveRunRow>, s: Id)
    ensures var best := LatestLiveRun(runs, s);
      && (best.Some? <==> exists r <- runs :: r.showtime == s && r.mode == Live && r.status == Completed)
      && (best.Some? ==>
            && best.value in runs && best.value.showtime == s && best.value.mode == Live && best.value.status == Completed
            && forall r <- runs :: r.showtime == s && r.mode == Live && r.status == Completed ==>
                 r.createdAt <= best.value.createdAt && (r.createdAt == best.value.createdAt ==> r.id <= best.value.id))
  {
  }

  /** A benefit is included when it is so in the newest configuration of the showtime. */
  lemma CurrentIncludedAre(db: Db, s: Id, b: Benefit)
    ensures b in CurrentIncluded(db, s) <==>
            && b in db.benefits && b.kind == Included
            && var config := LatestConfig(db.configs, s); config.Some? && b.config == config.value.id
    ensures var config := LatestConfig(db.configs, s);
      && (config.Some? <==> exists c <- db.configs :: c.showtime == s)
      && (config.Some? ==> forall c <- db.configs :: c.showtime == s ==> c.version <= config.value.version)
  {
  }

  lemma {:induction false} FindsTheOne(benefits: seq<Benefit>, b: Benefit)
    requires DistinctIdentities(benefits) && b in benefits
    ensures FindBenefit(benefits, b.identity) == Some(b)
  {
    var n := |benefits| - 1;
    if benefits[n] != b {
      var i :| 0 <= i < |benefits| && benefits[i] == b;
      assert benefits[..n][i] == b;
      FindsTheOne(benefits[..n], b);
    }
  }

  /** Which stored rights are still valid: of the newest live run, or configured and still included for the tier. */
  lemma StillValidExactly(db: Db, x: Item, r: Right)
    requires KeyedBenefits(db.benefits)
    ensures r.kind == Limited ==>
              (StillValid(db, x, r) <==> exists run <- db.runs :: LatestLiveRun(db.runs, x.showtime) == Some(run) && r.run == Some(run.id))
    ensures r.kind == Included ==>
              (StillValid(db, x, r) <==>
                 && r.source == Configuration
                 && exists b <- CurrentIncluded(db, x.showtime) :: b.identity == r.identity && x.tier in b.tiers)
    ensures r.kind == Included && StillValid(db, x, r) ==>
              exists b <- CurrentIncluded(db, x.showtime) :: b.identity == r.identity && CurrentCopy(db, x, r) == b.copy
  {
    var config := LatestConfig(db.configs, x.showtime);
    if config.Some? { IncludedDistinct(db.benefits, config.value.id); }
    forall b <- CurrentIncluded(db, x.showtime) ensures FindBenefit(CurrentIncluded(db, x.showtime), b.identity) == Some(b) {
      FindsTheOne(CurrentIncluded(db, x.showtime), b);
    }
  }

  /** The two partial unique indexes: one active limited right of a ticket, one live configured right of it to a benefit. */
  lemma IndexesAre(rights: seq<Right>)
    ensures Indexed(rights) <==> forall i, j | 0 <= i < j < |rights| && rights[i].item == rights[j].item ::
      && !(rights[i].kind == Limited && rights[i].state == Active && rights[j].kind == Limited && rights[j].state == Active)
      && !(rights[i].identity == rights[j].identity
           && rights[i].kind == Included && rights[i].source == Configuration && rights[i].state in {Active, Redeemed}
           && rights[j].kind == Included && rights[j].source == Configuration && rights[j].state in {Active, Redeemed})
  {
  }

  /** A restore fails for a missing showtime or for a collision, and says which. */
  lemma {:induction false} EachFailsFor(db: Db, showtimes: seq<Id>, items: seq<Item>, rights: seq<Right>)
    requires RestoreEach(db, showtimes, items, rights).Err?
    ensures var error := RestoreEach(db, showtimes, items, rights).error;
      && error in {ShowtimeNotFound, UniqueViolation}
      && (error == ShowtimeNotFound ==> exists s <- showtimes :: s !in db.showtimes)
  {
    var n := |showtimes| - 1;
    if RestoreEach(db, showtimes[..n], items, rights).Err? {
      EachFailsFor(db, showtimes[..n], items, rights);
    } else {
      assert showtimes[n] in showtimes;
    }
  }

  lemma RestoreFailsFor(db: Db, ids: seq<Id>, rights: seq<Right>)
    requires Restore(db, ids, rights).Err?
    ensures var error := Restore(db, ids, rights).error;
      && error in {ShowtimeNotFound, UniqueViolation}
      && (error == ShowtimeNotFound ==> exists x <- db.items :: IsRestored(db, ids, x) && x.showtime !in db.showtimes)
  {
    var items := ItemsIn(db.items, ids);
    EachFailsFor(db, Sorted(ShowtimesOf(items)), items, rights);
    if Restore(db, ids, rights).error == ShowtimeNotFound {
      var s :| s in Sorted(ShowtimesOf(items)) && s !in db.showtimes;
      var x :| x in items && x.showtime == s;
      assert IsRestored(db, ids, x);
    }
  }
}
