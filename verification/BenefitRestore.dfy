/** What restoring the rights of a rejected cancellation leaves in the table. */
module BenefitRestore {
  import opened BenefitRights

  // ----- facts about the table -----

  lemma LiveIsCollision(rights: seq<Right>, s: Id, item: Id, b: Benefit, repair: Option<Id>)
    ensures CollidesWithAny(NewRight(s, item, b, repair), rights) <==> HasLive(rights, item, b.identity)
  {
    var r := NewRight(s, item, b, repair);
    if HasLive(rights, item, b.identity) {
      var i :| 0 <= i < |rights| && IsLiveIncluded(rights[i]) && rights[i].item == item && rights[i].identity == b.identity;
      assert Collide(r, rights[i]);
    }
  }

  predicate Extends(rights: seq<Right>, t: seq<Right>) {
    |rights| <= |t| && forall i | 0 <= i < |rights| :: t[i] == rights[i]
  }

  lemma HasLiveStays(rights: seq<Right>, t: seq<Right>, item: Id, identity: string)
    requires Extends(rights, t) && HasLive(rights, item, identity)
    ensures HasLive(t, item, identity)
  {
    var i :| 0 <= i < |rights| && IsLiveIncluded(rights[i]) && rights[i].item == item && rights[i].identity == identity;
    assert t[i] == rights[i];
  }

  lemma AppendIndexed(rights: seq<Right>, r: Right)
    requires Indexed(rights) && !CollidesWithAny(r, rights)
    ensures Indexed(rights + [r])
  {
    forall i, j | 0 <= i < j < |rights + [r]| ensures !Collide((rights + [r])[i], (rights + [r])[j]) {
      if j == |rights| { assert !Collide(r, rights[i]); }
    }
  }

  // ----- issuing -----

  /** The row was issued for one of these items and benefits. */
  predicate FromIssue(s: Id, items: seq<Item>, benefits: seq<Benefit>, r: Right) {
    exists x, b :: x in items && b in benefits && IsIssueOf(s, x, b, r)
  }

  predicate IsIssueOf(s: Id, x: Item, b: Benefit, r: Right) {
    x.tier in b.tiers && r == NewRight(s, x.id, b, None)
  }

  predicate Served(items: seq<Item>, b: Benefit, rights: seq<Right>) {
    forall x <- items :: x.tier in b.tiers ==> HasLive(rights, x.id, b.identity)
  }

  lemma InsertServes(rights: seq<Right>, s: Id, x: Item, b: Benefit)
    ensures var t := InsertIfFree(rights, NewRight(s, x.id, b, None));
      && Extends(rights, t)
      && (Indexed(rights) ==> Indexed(t))
      && HasLive(t, x.id, b.identity)
  {
    var r := NewRight(s, x.id, b, None);
    LiveIsCollision(rights, s, x.id, b, None);
    if !CollidesWithAny(r, rights) {
      if Indexed(rights) { AppendIndexed(rights, r); }
      var t := rights + [r];
      assert IsLiveIncluded(t[|rights|]);
    }
  }

  lemma {:induction false} IssueBenefitExtends(rights: seq<Right>, s: Id, items: seq<Item>, b: Benefit)
    ensures var t := IssueBenefit(rights, s, items, b);
      Extends(rights, t) && (Indexed(rights) ==> Indexed(t))
    decreases |items|
  {
    if items != [] {
      var x := items[|items| - 1];
      IssueBenefitExtends(rights, s, items[..|items| - 1], b);
      InsertServes(IssueBenefit(rights, s, items[..|items| - 1], b), s, x, b);
    }
  }

  lemma {:induction false} IssueBenefitServes(rights: seq<Right>, s: Id, items: seq<Item>, b: Benefit, x: Item)
    requires x in items && x.tier in b.tiers
    ensures HasLive(IssueBenefit(rights, s, items, b), x.id, b.identity)
    decreases |items|
  {
    var y := items[|items| - 1];
    var before := IssueBenefit(rights, s, items[..|items| - 1], b);
    InsertServes(before, s, y, b);
    if x != y {
      IssueBenefitServes(rights, s, items[..|items| - 1], b, x);
      HasLiveStays(before, IssueBenefit(rights, s, items, b), x.id, b.identity);
    }
  }

  lemma {:induction false} IssueBenefitRows(rights: seq<Right>, s: Id, items: seq<Item>, b: Benefit, i: nat)
    requires |rights| <= i < |IssueBenefit(rights, s, items, b)|
    ensures FromIssue(s, items, [b], IssueBenefit(rights, s, items, b)[i])
    decreases |items|
  {
    var n := |items| - 1;
    var before := IssueBenefit(rights, s, items[..n], b);
    var r := IssueBenefit(rights, s, items, b)[i];
    if i < |before| {
      IssueBenefitRows(rights, s, items[..n], b, i);
      var x, c :| x in items[..n] && c in [b] && IsIssueOf(s, x, c, r);
      assert x in items && IsIssueOf(s, x, c, r);
    } else {
      assert items[n] in items && b in [b] && IsIssueOf(s, items[n], b, r);
    }
  }

  lemma {:induction false} IssueAllExtends(rights: seq<Right>, s: Id, items: seq<Item>, benefits: seq<Benefit>)
    ensures var t := IssueAll(rights, s, items, benefits);
      Extends(rights, t) && (Indexed(rights) ==> Indexed(t))
    decreases |benefits|
  {
    if benefits != [] {
      var n := |benefits| - 1;
      IssueAllExtends(rights, s, items, benefits[..n]);
      IssueBenefitExtends(IssueAll(rights, s, items, benefits[..n]), s, items, benefits[n]);
    }
  }

  lemma {:induction false} IssueAllServes(rights: seq<Right>, s: Id, items: seq<Item>, benefits: seq<Benefit>, x: Item, b: Benefit)
    requires x in items && b in benefits && x.tier in b.tiers
    ensures HasLive(IssueAll(rights, s, items, benefits), x.id, b.identity)
    decreases |benefits|
  {
    var n := |benefits| - 1;
    var before := IssueAll(rights, s, items, benefits[..n]);
    if b == benefits[n] {
      IssueBenefitServes(before, s, items, b, x);
    } else {
      IssueAllServes(rights, s, items, benefits[..n], x, b);
      IssueBenefitExtends(before, s, items, benefits[n]);
      HasLiveStays(before, IssueAll(rights, s, items, benefits), x.id, b.identity);
    }
  }

  lemma {:induction false} IssueAllRows(rights: seq<Right>, s: Id, items: seq<Item>, benefits: seq<Benefit>, i: nat)
    requires |rights| <= i < |IssueAll(rights, s, items, benefits)|
    ensures FromIssue(s, items, benefits, IssueAll(rights, s, items, benefits)[i])
    decreases |benefits|
  {
    var n := |benefits| - 1;
    var before := IssueAll(rights, s, items, benefits[..n]);
    var t := IssueAll(rights, s, items, benefits);
    IssueBenefitExtends(before, s, items, benefits[n]);
    if i < |before| {
      IssueAllRows(rights, s, items, benefits[..n], i);
      var x, b :| x in items && b in benefits[..n] && IsIssueOf(s, x, b, t[i]);
      assert b in benefits && IsIssueOf(s, x, b, t[i]);
    } else {
      IssueBenefitRows(before, s, items, benefits[n], i);
      var x, b :| x in items && b in [benefits[n]] && IsIssueOf(s, x, b, t[i]);
      assert b in benefits && IsIssueOf(s, x, b, t[i]);
    }
  }

  /** Issuing again changes nothing when every right is there. */
  lemma {:induction false} IssueBenefitIdle(rights: seq<Right>, s: Id, items: seq<Item>, b: Benefit)
    requires Served(items, b, rights)
    ensures IssueBenefit(rights, s, items, b) == rights
    decreases |items|
  {
    if items != [] {
      var n := |items| - 1;
      assert Served(items[..n], b, rights);
      IssueBenefitIdle(rights, s, items[..n], b);
      LiveIsCollision(rights, s, items[n].id, b, None);
    }
  }

  lemma {:induction false} IssueAllIdle(rights: seq<Right>, s: Id, items: seq<Item>, benefits: seq<Benefit>)
    requires forall b <- benefits :: Served(items, b, rights)
    ensures IssueAll(rights, s, items, benefits) == rights
    decreases |benefits|
  {
    if benefits != [] {
      var n := |benefits| - 1;
      IssueAllIdle(rights, s, items, benefits[..n]);
      IssueBenefitIdle(rights, s, items, benefits[n]);
    }
  }

  // ----- restoring, row by row -----

  predicate UniqueIds(items: seq<Item>) {
    forall x, y :: x in items && y in items && x.id == y.id ==> x == y
  }

  /** What restoring the items of these showtimes makes of a row. */
  function Settle(db: Db, items: seq<Item>, showtimes: set<Id>, r: Right): Right {
    var x := FindItem(items, r.item);
    if x.Some? && x.value.showtime in showtimes && PendingRow(r) then Decide(db, x.value.showtime, items, r) else r
  }

  function Settled(db: Db, items: seq<Item>, showtimes: set<Id>, rights: seq<Right>): (t: seq<Right>)
    ensures |t| == |rights|
    ensures forall i | 0 <= i < |t| :: t[i] == Settle(db, items, showtimes, rights[i])
  {
    seq(|rights|, i requires 0 <= i < |rights| => Settle(db, items, showtimes, rights[i]))
  }

  lemma FindItemOf(items: seq<Item>, s: Id, id: Id)
    requires UniqueIds(items)
    ensures var x, y := FindItem(items, id), FindItem(ItemsOf(items, s), id);
      y == if x.Some? && x.value.showtime == s then x else None
  {
  }

  lemma ReactivatedRow(db: Db, s: Id, items: seq<Item>, r: Right)
    requires UniqueIds(items)
    ensures var own := ItemsOf(items, s);
      (if IsPending(r, own) then Decide(db, s, own, r) else r) == Settle(db, items, {s}, r)
  {
    FindItemOf(items, s, r.item);
  }

  lemma SettleTwice(db: Db, items: seq<Item>, a: set<Id>, b: set<Id>, r: Right)
    ensures Settle(db, items, b, Settle(db, items, a, r)) == Settle(db, items, a + b, r)
  {
  }

  /** The current configuration gives this item's tier the benefit. */
  predicate Entitled(db: Db, x: Item, b: Benefit) {
    b in CurrentIncluded(db, x.showtime) && x.tier in b.tiers
  }

  ghost predicate IsAdded(db: Db, items: seq<Item>, showtimes: set<Id>, r: Right) {
    exists x, b :: x in items && x.showtime in showtimes && Entitled(db, x, b) && IsIssueOf(x.showtime, x, b, r)
  }

  predicate HasItsRights(db: Db, x: Item, t: seq<Right>) {
    forall b <- CurrentIncluded(db, x.showtime) :: x.tier in b.tiers ==> HasLive(t, x.id, b.identity)
  }

  ghost predicate Restored(db: Db, items: seq<Item>, showtimes: set<Id>, rights: seq<Right>, t: seq<Right>) {
    && |rights| <= |t|
    && (forall i | 0 <= i < |rights| :: t[i] == Settle(db, items, showtimes, rights[i]))
    && (forall i | |rights| <= i < |t| :: IsAdded(db, items, showtimes, t[i]))
    && (forall x <- items | x.showtime in showtimes :: HasItsRights(db, x, t))
    && Indexed(t)
  }

  lemma IsAddedMore(db: Db, items: seq<Item>, a: set<Id>, b: set<Id>, r: Right)
    requires a <= b && IsAdded(db, items, a, r)
    ensures IsAdded(db, items, b, r)
  {
    var x, c :| x in items && x.showtime in a && Entitled(db, x, c) && IsIssueOf(x.showtime, x, c, r);
    assert x.showtime in b;
  }

  lemma IssuedIsAdded(db: Db, items: seq<Item>, s: Id, r: Right)
    requires FromIssue(s, ItemsOf(items, s), CurrentIncluded(db, s), r)
    ensures IsAdded(db, items, {s}, r)
  {
    var x, b :| x in ItemsOf(items, s) && b in CurrentIncluded(db, s) && IsIssueOf(s, x, b, r);
    assert Entitled(db, x, b) && IsIssueOf(x.showtime, x, b, r);
  }

  lemma SettleKeepsLive(db: Db, items: seq<Item>, s: Id, rights: seq<Right>, item: Id, identity: string)
    requires UniqueIds(items) && HasLive(rights, item, identity)
    ensures HasLive(Reactivated(db, s, ItemsOf(items, s), rights), item, identity)
  {
    var t := Reactivated(db, s, ItemsOf(items, s), rights);
    var i :| 0 <= i < |rights| && IsLiveIncluded(rights[i]) && rights[i].item == item && rights[i].identity == identity;
    assert t[i] == rights[i];
  }

  lemma SyncExtends(db: Db, s: Id, items: seq<Item>, rights: seq<Right>, t: seq<Right>)
    requires Sync(db, s, items, rights) == Ok(t)
    ensures Extends(rights, t)
    ensures Indexed(rights) ==> Indexed(t)
    ensures forall i | |rights| <= i < |t| :: FromIssue(s, items, CurrentIncluded(db, s), t[i])
    ensures forall x <- items, b <- CurrentIncluded(db, s) :: x.tier in b.tiers ==> HasLive(t, x.id, b.identity)
  {
    if items != [] {
      var benefits := CurrentIncluded(db, s);
      IssueAllExtends(rights, s, items, benefits);
      forall i | |rights| <= i < |t| ensures FromIssue(s, items, benefits, t[i]) { IssueAllRows(rights, s, items, benefits, i); }
      forall x <- items, b <- benefits | x.tier in b.tiers ensures HasLive(t, x.id, b.identity) {
        IssueAllServes(rights, s, items, benefits, x, b);
      }
    }
  }

  /** The showtime of one restored item after another: rows, added rows, rights. */
  lemma ShowtimeRows(db: Db, s: Id, items: seq<Item>, done: set<Id>, rights: seq<Right>, t: seq<Right>, u: seq<Right>, i: nat)
    requires UniqueIds(items) && Restored(db, items, done, rights, t)
    requires RestoreShowtime(db, s, ItemsOf(items, s), t) == Ok(u)
    requires i < |u|
    ensures |rights| <= |u|
    ensures i < |rights| ==> u[i] == Settle(db, items, done + {s}, rights[i])
    ensures i >= |rights| ==> IsAdded(db, items, done + {s}, u[i])
  {
    SyncExtends(db, s, ItemsOf(items, s), Reactivated(db, s, ItemsOf(items, s), t), u);
    if i < |t| {
      ReactivatedRow(db, s, items, t[i]);
      if i < |rights| {
        SettleTwice(db, items, done, {s}, rights[i]);
      } else {
        IsAddedMore(db, items, done, done + {s}, t[i]);
      }
    } else {
      IssuedIsAdded(db, items, s, u[i]);
      IsAddedMore(db, items, {s}, done + {s}, u[i]);
    }
  }

  lemma ShowtimeServes(db: Db, s: Id, items: seq<Item>, done: set<Id>, rights: seq<Right>, t: seq<Right>, u: seq<Right>, x: Item)
    requires UniqueIds(items) && Restored(db, items, done, rights, t)
    requires RestoreShowtime(db, s, ItemsOf(items, s), t) == Ok(u)
    requires x in items && x.showtime in done + {s}
    ensures HasItsRights(db, x, u)
  {
    var own := ItemsOf(items, s);
    var v := Reactivated(db, s, own, t);
    SyncExtends(db, s, own, v, u);
    if x.showtime != s {
      forall b <- CurrentIncluded(db, x.showtime) | x.tier in b.tiers ensures HasLive(u, x.id, b.identity) {
        assert HasItsRights(db, x, t);
        SettleKeepsLive(db, items, s, t, x.id, b.identity);
        HasLiveStays(v, u, x.id, b.identity);
      }
    }
  }

  lemma ShowtimeRestored(db: Db, s: Id, items: seq<Item>, done: set<Id>, rights: seq<Right>, t: seq<Right>, u: seq<Right>)
    requires UniqueIds(items) && Restored(db, items, done, rights, t)
    requires RestoreShowtime(db, s, ItemsOf(items, s), t) == Ok(u)
    ensures Restored(db, items, done + {s}, rights, u)
  {
    SyncExtends(db, s, ItemsOf(items, s), Reactivated(db, s, ItemsOf(items, s), t), u);
    forall i | 0 <= i < |rights| ensures u[i] == Settle(db, items, done + {s}, rights[i]) {
      ShowtimeRows(db, s, items, done, rights, t, u, i);
    }
    forall i | |rights| <= i < |u| ensures IsAdded(db, items, done + {s}, u[i]) {
      ShowtimeRows(db, s, items, done, rights, t, u, i);
    }
    forall x <- items | x.showtime in done + {s} ensures HasItsRights(db, x, u) {
      ShowtimeServes(db, s, items, done, rights, t, u, x);
    }
  }

  lemma SettleNone(db: Db, items: seq<Item>, rights: seq<Right>)
    requires Indexed(rights)
    ensures Restored(db, items, {}, rights, rights)
  {
  }

  function Seen(showtimes: seq<Id>): set<Id> {
    set s <- showtimes
  }

  lemma {:induction false} EachRestored(db: Db, showtimes: seq<Id>, items: seq<Item>, rights: seq<Right>, t: seq<Right>)
    requires UniqueIds(items) && Indexed(rights)
    requires RestoreEach(db, showtimes, items, rights) == Ok(t)
    ensures Restored(db, items, Seen(showtimes), rights, t)
    decreases |showtimes|
  {
    if showtimes == [] {
      SettleNone(db, items, rights);
    } else {
      var n := |showtimes| - 1;
      var before := RestoreEach(db, showtimes[..n], items, rights).value;
      EachRestored(db, showtimes[..n], items, rights, before);
      ShowtimeRestored(db, showtimes[n], items, Seen(showtimes[..n]), rights, before, t);
      assert Seen(showtimes[..n]) + {showtimes[n]} == Seen(showtimes);
    }
  }
}
