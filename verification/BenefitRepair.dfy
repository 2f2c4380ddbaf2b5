/** What an apply run of the included-benefit repair does to the rights of a showtime. */
module BenefitRepair {
  import opened BenefitRights
  import opened BenefitRestore

  /** Ticket ids are unique; a configuration has one benefit of each identity. */
  predicate Keyed(db: Db) {
    && (forall i, j | 0 <= i < j < |db.items| :: db.items[i].id != db.items[j].id)
    && KeyedBenefits(db.benefits)
  }

  predicate KeyedBenefits(benefits: seq<Benefit>) {
    forall i, j | 0 <= i < j < |benefits| :: benefits[i].config == benefits[j].config ==> benefits[i].identity != benefits[j].identity
  }

  predicate DistinctIdentities(benefits: seq<Benefit>) {
    forall i, j | 0 <= i < j < |benefits| :: benefits[i].identity != benefits[j].identity
  }

  /** No two candidates are for the same ticket and benefit. */
  predicate DistinctCandidates(cs: seq<Candidate>) {
    forall i, j | 0 <= i < j < |cs| :: cs[i].item.id == cs[j].item.id ==> cs[i].benefit.identity != cs[j].benefit.identity
  }

  lemma {:induction false} IncludedDistinct(benefits: seq<Benefit>, config: Id)
    requires KeyedBenefits(benefits)
    ensures DistinctIdentities(IncludedOf(benefits, config))
  {
    if benefits != [] {
      var rest := IncludedOf(benefits[1..], config);
      IncludedDistinct(benefits[1..], config);
      forall j | 0 <= j < |rest| && benefits[0].config == config ensures benefits[0].identity != rest[j].identity {
        assert rest[j] in benefits[1..];
      }
    }
  }

  lemma {:induction false} CandidatesOfItemDistinct(rights: seq<Right>, s: Id, x: Item, benefits: seq<Benefit>)
    requires DistinctIdentities(benefits)
    ensures DistinctCandidates(CandidatesOfItem(rights, s, x, benefits))
  {
    if benefits != [] {
      var n := |benefits| - 1;
      var before := CandidatesOfItem(rights, s, x, benefits[..n]);
      CandidatesOfItemDistinct(rights, s, x, benefits[..n]);
      forall i | 0 <= i < |before| ensures before[i].benefit.identity != benefits[n].identity {
        assert before[i] in before;
      }
    }
  }

  lemma JoinDistinct(a: seq<Candidate>, b: seq<Candidate>)
    requires DistinctCandidates(a) && DistinctCandidates(b)
    requires forall c, d :: c in a && d in b ==> c.item.id != d.item.id
    ensures DistinctCandidates(a + b)
  {
    var cs := a + b;
    forall i, j | 0 <= i < j < |cs|
      ensures cs[i].item.id == cs[j].item.id ==> cs[i].benefit.identity != cs[j].benefit.identity
    {
      if i < |a| <= j { assert cs[i] in a && cs[j] in b; }
    }
  }

  lemma {:induction false} CandidatesDistinct(rights: seq<Right>, s: Id, items: seq<Item>, benefits: seq<Benefit>)
    requires DistinctIdentities(benefits)
    requires forall i, j | 0 <= i < j < |items| :: items[i].id != items[j].id
    ensures DistinctCandidates(CandidatesOf(rights, s, items, benefits))
  {
    if items != [] {
      var n := |items| - 1;
      CandidatesDistinct(rights, s, items[..n], benefits);
      CandidatesOfItemDistinct(rights, s, items[n], benefits);
      JoinDistinct(CandidatesOf(rights, s, items[..n], benefits), CandidatesOfItem(rights, s, items[n], benefits));
    }
  }

  lemma FoundAreDistinct(db: Db, rights: seq<Right>, s: Id)
    requires Keyed(db)
    ensures DistinctCandidates(Candidates(db, rights, s))
  {
    var config := LatestConfig(db.configs, s);
    if config.Some? { IncludedDistinct(db.benefits, config.value.id); }
    CandidatesDistinct(rights, s, db.items, CurrentIncluded(db, s));
  }

  // ----- the tickets of the candidates -----

  function IdSet(ids: seq<Id>): set<Id> {
    set id <- ids
  }

  lemma {:induction false} Size(ids: seq<Id>)
    requires forall i, j | 0 <= i < j < |ids| :: ids[i] != ids[j]
    ensures |IdSet(ids)| == |ids|
  {
    if ids == [] {
      assert IdSet(ids) == {};
    } else {
      var n := |ids| - 1;
      Size(ids[..n]);
      assert IdSet(ids) == IdSet(ids[..n]) + {ids[n]};
    }
  }

  lemma FullSubset(a: set<Id>, b: set<Id>)
    requires a <= b && |a| == |b|
    ensures a == b
  {
    assert b == a + (b - a);
  }

  /** The count of locked tickets is right exactly when every one of them is still sold and active. */
  lemma AllLockable(items: seq<Item>, s: Id, ids: seq<Id>)
    requires forall i, j | 0 <= i < j < |ids| :: ids[i] != ids[j]
    ensures |Lockable(items, s, ids)| == |ids| <==> forall id <- ids :: id in Lockable(items, s, ids)
  {
    var all := IdSet(ids);
    Size(ids);
    assert Lockable(items, s, ids) <= all;
    if |Lockable(items, s, ids)| == |ids| {
      FullSubset(Lockable(items, s, ids), all);
    }
    if forall id <- ids :: id in Lockable(items, s, ids) {
      assert Lockable(items, s, ids) == all;
    }
  }

  lemma FoundAreLockable(db: Db, rights: seq<Right>, s: Id)
    ensures var ids := TicketIds(Candidates(db, rights, s)); |Lockable(db.items, s, ids)| == |ids|
  {
    var candidates := Candidates(db, rights, s);
    var ids := TicketIds(candidates);
    forall id <- ids ensures id in Lockable(db.items, s, ids) {
      var c :| c in candidates && c.item.id == id;
      assert Missing(rights, s, c.item, c.benefit);
    }
    AllLockable(db.items, s, ids);
  }

  // ----- what a committed run did -----

  /** A run that commits inserts the reviewed candidates and nothing else, for tickets still sold and active. */
  lemma CommittedRun(db: Db, rights: seq<Right>, s: Id, digest: seq<Candidate> -> string, expected: string,
                     locked: seq<Item>, current: seq<Right>, audit: Id, report: Report, t: seq<Right>, c: Candidate)
    requires Repair(db, rights, s, digest, Some(expected), locked, current, audit) == Ok((report, t))
    requires c in Candidates(db, rights, s)
    ensures expected == digest(Candidates(db, rights, s))
    ensures t == current + RepairRows(s, Candidates(db, rights, s), audit) && Indexed(t)
    ensures report.applied == |Candidates(db, rights, s)| && report.audit == Some(audit)
    ensures NewRight(s, c.item.id, c.benefit, report.audit) in t[|current|..]
    ensures !HasLive(current, c.item.id, c.benefit.identity)
    ensures exists x <- locked :: x.id == c.item.id && x.showtime == s && x.status.ItemActive? && x.confirmed && x.paid
  {
    var candidates := Candidates(db, rights, s);
    var ids := TicketIds(candidates);
    AllLockable(locked, s, ids);
    assert c.item.id in ids;
    var rows := RepairRows(s, candidates, audit);
    assert t[|current|..] == rows;
    var k :| 0 <= k < |candidates| && candidates[k] == c;
    assert rows[k] == NewRight(s, c.item.id, c.benefit, report.audit);
    NotLiveBefore(current, rows, k);
  }

  lemma NotLiveBefore(current: seq<Right>, rows: seq<Right>, k: nat)
    requires Indexed(current + rows) && k < |rows| && IsLiveIncluded(rows[k])
    ensures !HasLive(current, rows[k].item, rows[k].identity)
  {
    var t := current + rows;
    forall i | 0 <= i < |current| ensures !Collide(current[i], rows[k]) {
      assert !Collide(t[i], t[|current| + k]);
    }
  }

  // ----- a run nothing else interferes with -----

  lemma RowsFit(db: Db, rights: seq<Right>, s: Id, audit: Id)
    requires Keyed(db) && Indexed(rights)
    ensures Indexed(rights + RepairRows(s, Candidates(db, rights, s), audit))
  {
    var candidates := Candidates(db, rights, s);
    var rows := RepairRows(s, candidates, audit);
    var t := rights + rows;
    FoundAreDistinct(db, rights, s);
    forall i, j | 0 <= i < j < |t| ensures !Collide(t[i], t[j]) {
      if j >= |rights| {
        var c := candidates[j - |rights|];
        assert c in candidates && Missing(rights, s, c.item, c.benefit);
        if i >= |rights| { assert candidates[i - |rights|].item.id == c.item.id ==> candidates[i - |rights|].benefit.identity != c.benefit.identity; }
      }
    }
  }

  lemma FirstIsIn(cs: seq<Candidate>)
    ensures cs == [] || cs[0] in cs
  {
  }

  lemma NothingMissing(db: Db, rights: seq<Right>, s: Id, audit: Id)
    ensures Candidates(db, rights + RepairRows(s, Candidates(db, rights, s), audit), s) == []
  {
    var candidates := Candidates(db, rights, s);
    var t := rights + RepairRows(s, candidates, audit);
    forall c ensures c !in Candidates(db, t, s) {
      if c in candidates {
        var k :| 0 <= k < |candidates| && candidates[k] == c;
        assert IsLiveIncluded(t[|rights| + k]);
        assert HasLive(t, c.item.id, c.benefit.identity);
      } else if c.item in db.items && c.benefit in CurrentIncluded(db, s) && Missing(t, s, c.item, c.benefit) {
        assert HasLive(rights, c.item.id, c.benefit.identity);
        HasLiveStays(rights, t, c.item.id, c.benefit.identity);
      }
    }
    FirstIsIn(Candidates(db, t, s));
  }

  /**
   With the showtime held, an apply run commits exactly when the reviewed digest
   is the one of the candidates, and then no right is missing any more.
   */
  lemma ApplyCommitsExactly(db: Db, rights: seq<Right>, s: Id, digest: seq<Candidate> -> string, expected: string, audit: Id)
    requires Keyed(db) && Indexed(rights) && s in db.showtimes
    ensures var r := Repair(db, rights, s, digest, Some(expected), db.items, rights, audit);
      && (r.Ok? <==> expected == digest(Candidates(db, rights, s)))
      && (r.Ok? ==> Indexed(r.value.1) && Candidates(db, r.value.1, s) == [])
  {
    FoundAreLockable(db, rights, s);
    RowsFit(db, rights, s, audit);
    NothingMissing(db, rights, s, audit);
  }

  /** What a dry run reports is what an apply run with its digest then inserts. */
  lemma DryRunForetellsApply(db: Db, rights: seq<Right>, s: Id, digest: seq<Candidate> -> string, audit: Id)
    requires Keyed(db) && Indexed(rights) && s in db.showtimes
    ensures var dry := Repair(db, rights, s, digest, None, db.items, rights, audit);
      var run := Repair(db, rights, s, digest, Some(digest(Candidates(db, rights, s))), db.items, rights, audit);
      && dry.Ok? && dry.value.1 == rights
      && run.Ok? && run.value.0 == dry.value.0.(applied := dry.value.0.missingEntitlements, audit := Some(audit))
      && |run.value.1| == |rights| + dry.value.0.missingEntitlements
  {
    ApplyCommitsExactly(db, rights, s, digest, digest(Candidates(db, rights, s)), audit);
  }

  // ----- what the repair is for -----

  /** A ticket of the showtime that is sold and active. */
  predicate IsSold(x: Item, s: Id) {
    x.showtime == s && x.status.ItemActive? && x.confirmed && x.paid
  }

  /** A ticket has a candidate exactly when it is sold and lacks a right. */
  lemma CandidateExactly(db: Db, rights: seq<Right>, s: Id, x: Item)
    requires x in db.items
    ensures (exists c <- Candidates(db, rights, s) :: c.item == x) <==> IsSold(x, s) && !HasItsRights(db, x, rights)
  {
    if IsSold(x, s) && !HasItsRights(db, x, rights) {
      var b :| b in CurrentIncluded(db, s) && x.tier in b.tiers && !HasLive(rights, x.id, b.identity);
      assert Candidate(x, b) in Candidates(db, rights, s);
    }
  }

  /** An apply run that commits leaves every sold ticket with all its rights. */
  lemma RepairGivesRights(db: Db, rights: seq<Right>, s: Id, digest: seq<Candidate> -> string, expected: string, audit: Id, x: Item)
    requires Keyed(db) && Indexed(rights) && x in db.items && IsSold(x, s)
    requires Repair(db, rights, s, digest, Some(expected), db.items, rights, audit).Ok?
    ensures HasItsRights(db, x, Repair(db, rights, s, digest, Some(expected), db.items, rights, audit).value.1)
  {
    var t := Repair(db, rights, s, digest, Some(expected), db.items, rights, audit).value.1;
    NothingMissing(db, rights, s, audit);
    CandidateExactly(db, t, s, x);
  }

  /** Every row it inserts is a right that a sold ticket is due and did not have. */
  lemma RepairInsertsDue(db: Db, rights: seq<Right>, s: Id, digest: seq<Candidate> -> string, expected: string,
                         locked: seq<Item>, current: seq<Right>, audit: Id, k: nat)
    requires Repair(db, rights, s, digest, Some(expected), locked, current, audit).Ok?
    requires var t := Repair(db, rights, s, digest, Some(expected), locked, current, audit).value.1; |current| <= k < |t|
    ensures var row := Repair(db, rights, s, digest, Some(expected), locked, current, audit).value.1[k];
      exists x <- db.items, b <- CurrentIncluded(db, s) ::
        && IsSold(x, s) && x.tier in b.tiers && !HasLive(rights, x.id, b.identity)
        && row == Right(s, x.id, b.identity, Included, b.copy, Configuration, None, Active, None, Some(audit))
  {
    var c := Candidates(db, rights, s)[k - |current|];
    assert c in Candidates(db, rights, s);
  }

  /** A dry run reports the sold tickets that lack a right, and so none exactly when each has all of its rights. */
  lemma DryRunCountsExactly(db: Db, rights: seq<Right>, s: Id, digest: seq<Candidate> -> string, audit: Id)
    requires s in db.showtimes
    ensures var report := Repair(db, rights, s, digest, None, db.items, rights, audit).value.0;
      && report.missingTickets == |set x <- db.items | IsSold(x, s) && !HasItsRights(db, x, rights) :: x.id|
      && (report.missingEntitlements == 0 <==> forall x <- db.items :: IsSold(x, s) ==> HasItsRights(db, x, rights))
  {
    var candidates := Candidates(db, rights, s);
    var ids := TicketIds(candidates);
    forall x <- db.items
      ensures IsSold(x, s) && !HasItsRights(db, x, rights) <==> exists c <- candidates :: c.item == x
    {
      CandidateExactly(db, rights, s, x);
    }
    Size(ids);
    var lacking := set x <- db.items | IsSold(x, s) && !HasItsRights(db, x, rights) :: x.id;
    forall id ensures id in IdSet(ids) <==> id in lacking {
      if id in ids { var c :| c in candidates && c.item.id == id; }
    }
    assert IdSet(ids) == lacking;
    FirstIsIn(candidates);
  }

  /** A run fails for a missing showtime, or because the candidates, their tickets or their rights changed. */
  lemma RepairFailsFor(db: Db, rights: seq<Right>, s: Id, digest: seq<Candidate> -> string, expected: Option<string>,
                       locked: seq<Item>, current: seq<Right>, audit: Id)
    requires Repair(db, rights, s, digest, expected, locked, current, audit).Err?
    ensures Repair(db, rights, s, digest, expected, locked, current, audit).error
            == if s !in db.showtimes then ShowtimeNotFound else CandidatesChanged
    ensures s in db.showtimes ==> expected.Some?
  {
  }
}
