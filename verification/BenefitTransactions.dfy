/** The transactions over the rights table, statement by statement. */
module BenefitTransactions {
  import opened BenefitRights
  import opened BenefitRestore
  import opened BenefitRepair

  const REPAIR_CHUNK_SIZE: nat := 1000

  // ----- rows to insert -----

  function RowsFor(s: Id, items: seq<Item>, b: Benefit): seq<Right> {
    if items == [] then []
    else
      RowsFor(s, items[..|items| - 1], b)
      + (var x := items[|items| - 1]; if x.tier in b.tiers then [NewRight(s, x.id, b, None)] else [])
  }

  function RowsForAll(s: Id, items: seq<Item>, benefits: seq<Benefit>): seq<Right> {
    if benefits == [] then []
    else RowsForAll(s, items, benefits[..|benefits| - 1]) + RowsFor(s, items, benefits[|benefits| - 1])
  }

  function InsertEach(rights: seq<Right>, rows: seq<Right>): seq<Right> {
    if rows == [] then rights else InsertIfFree(InsertEach(rights, rows[..|rows| - 1]), rows[|rows| - 1])
  }

  lemma {:induction false} InsertConcat(rights: seq<Right>, a: seq<Right>, b: seq<Right>)
    ensures InsertEach(rights, a + b) == InsertEach(InsertEach(rights, a), b)
    decreases |b|
  {
    if b == [] {
      assert a + b == a;
    } else {
      InsertConcat(rights, a, b[..|b| - 1]);
      assert (a + b)[..|a + b| - 1] == a + b[..|b| - 1];
    }
  }

  lemma {:induction false} RowsIssueBenefit(rights: seq<Right>, s: Id, items: seq<Item>, b: Benefit)
    ensures InsertEach(rights, RowsFor(s, items, b)) == IssueBenefit(rights, s, items, b)
    decreases |items|
  {
    if items != [] {
      var before := RowsFor(s, items[..|items| - 1], b);
      var x := items[|items| - 1];
      RowsIssueBenefit(rights, s, items[..|items| - 1], b);
      if x.tier in b.tiers {
        var r := NewRight(s, x.id, b, None);
        InsertConcat(rights, before, [r]);
        assert InsertEach(InsertEach(rights, before), [r]) == InsertIfFree(InsertEach(rights, before), r);
      } else {
        assert before + [] == before;
      }
    }
  }

  /** The multi-row insert issues each benefit to each ticket of its tiers. */
  lemma {:induction false} RowsIssueAll(rights: seq<Right>, s: Id, items: seq<Item>, benefits: seq<Benefit>)
    ensures InsertEach(rights, RowsForAll(s, items, benefits)) == IssueAll(rights, s, items, benefits)
    decreases |benefits|
  {
    if benefits != [] {
      var n := |benefits| - 1;
      RowsIssueAll(rights, s, items, benefits[..n]);
      InsertConcat(rights, RowsForAll(s, items, benefits[..n]), RowsFor(s, items, benefits[n]));
      RowsIssueBenefit(IssueAll(rights, s, items, benefits[..n]), s, items, benefits[n]);
    }
  }

  // ----- one update after another -----

  /** The rows in todo still wait for their update; the others are as they end up. */
  predicate Halfway(rights: seq<Right>, final: seq<Right>, todo: set<nat>, rows: seq<Right>) {
    && |rows| == |rights| == |final|
    && forall i: nat | i < |rows| :: rows[i] == if i in todo then rights[i] else final[i]
  }

  /** An update the index refuses would have made the finished table collide. */
  lemma RefusedMeansCollision(rights: seq<Right>, final: seq<Right>, todo: set<nat>, rows: seq<Right>, i: nat)
    requires Halfway(rights, final, todo, rows) && Indexed(rows) && i < |rows|
    requires forall j: nat | j in todo && j < |rights| :: PendingRow(rights[j])
    requires !Indexed(rows[i := final[i]])
    ensures !Indexed(final)
  {
    var next := rows[i := final[i]];
    var a: nat, b: nat :| a < b < |next| && Collide(next[a], next[b]);
    assert !Collide(rows[a], rows[b]);
    assert Collide(final[a], final[b]);
  }

  lemma LastUpdate(rights: seq<Right>, final: seq<Right>, rows: seq<Right>)
    requires Halfway(rights, final, {}, rows)
    ensures rows == final
  {
  }

  // ----- one showtime after another -----

  lemma NoItems(items: seq<Item>)
    ensures ItemsIn(items, []) == []
  {
  }

  predicate Grouped(items: seq<Item>, groups: map<Id, seq<Item>>) {
    groups.Keys == ShowtimesOf(items) && forall s <- groups :: groups[s] == ItemsOf(items, s)
  }

  lemma NoneOf(items: seq<Item>, s: Id)
    ensures s !in ShowtimesOf(items) ==> ItemsOf(items, s) == []
  {
  }

  lemma GroupMore(items: seq<Item>, groups: map<Id, seq<Item>>, x: Item)
    requires Grouped(items, groups)
    ensures var group := if x.showtime in groups then groups[x.showtime] else [];
      Grouped(items + [x], groups[x.showtime := group + [x]])
  {
    var more := items + [x];
    assert more[..|more| - 1] == items;
    NoneOf(items, x.showtime);
    assert ShowtimesOf(more) == ShowtimesOf(items) + {x.showtime};
  }

  /** A showtime that cannot be restored fails the whole run. */
  lemma {:induction false} EachFails(db: Db, showtimes: seq<Id>, items: seq<Item>, rights: seq<Right>, k: nat)
    requires k <= |showtimes|
    ensures RestoreEach(db, showtimes[..k], items, rights).Err? ==>
              RestoreEach(db, showtimes, items, rights) == RestoreEach(db, showtimes[..k], items, rights)
    decreases |showtimes|
  {
    if k == |showtimes| {
      assert showtimes[..k] == showtimes;
    } else {
      var n := |showtimes| - 1;
      EachFails(db, showtimes[..n], items, rights, k);
      assert showtimes[..n][..k] == showtimes[..k];
    }
  }

  lemma EachStep(db: Db, showtimes: seq<Id>, items: seq<Item>, rights: seq<Right>, k: nat, t: seq<Right>)
    requires k < |showtimes| && RestoreEach(db, showtimes[..k], items, rights) == Ok(t)
    ensures var s := showtimes[k]; var r := RestoreShowtime(db, s, ItemsOf(items, s), t);
      && RestoreEach(db, showtimes[..k + 1], items, rights) == r
      && (r.Err? ==> RestoreEach(db, showtimes, items, rights) == r)
  {
    assert showtimes[..k + 1][..k] == showtimes[..k];
    EachFails(db, showtimes, items, rights, k + 1);
  }

  lemma {:induction false} EachIndexed(db: Db, showtimes: seq<Id>, items: seq<Item>, rights: seq<Right>)
    requires Indexed(rights)
    ensures var r := RestoreEach(db, showtimes, items, rights); r.Ok? ==> Indexed(r.value)
    decreases |showtimes|
  {
    if showtimes != [] && RestoreEach(db, showtimes, items, rights).Ok? {
      var n := |showtimes| - 1;
      var s, t := showtimes[n], RestoreEach(db, showtimes[..n], items, rights).value;
      var own := ItemsOf(items, s);
      SyncExtends(db, s, own, Reactivated(db, s, own, t), RestoreShowtime(db, s, own, t).value);
    }
  }

  // ----- tickets locked chunk by chunk -----

  lemma LockableSplit(items: seq<Item>, s: Id, a: seq<Id>, b: seq<Id>)
    requires forall x, y :: x in a && y in b ==> x != y
    ensures |Lockable(items, s, a + b)| == |Lockable(items, s, a)| + |Lockable(items, s, b)|
  {
    var la, lb := Lockable(items, s, a), Lockable(items, s, b);
    assert Lockable(items, s, a + b) == la + lb;
    assert la !! lb;
  }

  lemma ChunkSplit(ids: seq<Id>, from: nat, to: nat)
    requires from <= to <= |ids|
    requires forall i, j | 0 <= i < j < |ids| :: ids[i] != ids[j]
    ensures ids[..to] == ids[..from] + ids[from..to]
    ensures forall x, y :: x in ids[..from] && y in ids[from..to] ==> x != y
  {
  }

  function Clamp(n: nat, max: nat): nat {
    if n < max then n else max
  }

  /** A chunk that collides makes the whole insertion collide. */
  lemma PrefixIndexed(rights: seq<Right>, added: seq<Right>, to: nat)
    requires to <= |added| && Indexed(rights + added)
    ensures Indexed(rights + added[..to])
  {
    var t := rights + added[..to];
    forall i, j | 0 <= i < j < |t| ensures !Collide(t[i], t[j]) {
      assert !Collide((rights + added)[i], (rights + added)[j]);
    }
  }

  lemma RepairRowsSlice(s: Id, candidates: seq<Candidate>, audit: Id, from: nat, to: nat)
    requires from <= to <= |candidates|
    ensures RepairRows(s, candidates[from..to], audit) == RepairRows(s, candidates, audit)[from..to]
  {
  }

  lemma NextChunk(rights: seq<Right>, added: seq<Right>, from: nat, to: nat)
    requires from <= to <= |added|
    ensures rights + added[..from] + added[from..to] == rights + added[..to]
  {
  }

  class RightsTable {
    var rows: seq<Right>

    constructor ()
      ensures rows == [] && Indexed(rows)
    {
      rows := [];
    }

    method Update(i: nat, r: Right) returns (ok: bool)
      requires i < |rows|
      modifies this
      ensures ok <==> Indexed(old(rows)[i := r])
      ensures rows == if ok then old(rows)[i := r] else old(rows)
    {
      ok := Indexed(rows[i := r]);
      if ok { rows := rows[i := r]; }
    }

    /** A multi-row insert: all rows or, if one collides, none. */
    method Insert(added: seq<Right>) returns (ok: bool)
      modifies this
      ensures ok <==> Indexed(old(rows) + added)
      ensures rows == if ok then old(rows) + added else old(rows)
    {
      ok := Indexed(rows + added);
      if ok { rows := rows + added; }
    }

    method InsertOnConflictDoNothing(added: seq<Right>)
      modifies this
      ensures rows == InsertEach(old(rows), added)
    {
      for i := 0 to |added|
        invariant rows == InsertEach(old(rows), added[..i])
      {
        assert added[..i + 1][..i] == added[..i];
        if !CollidesWithAny(added[i], rows) { rows := rows + [added[i]]; }
      }
      assert added[..|added|] == added;
    }

    method SyncIncluded(db: Db, s: Id, items: seq<Item>) returns (error: Option<Error>)
      modifies this
      ensures match Sync(db, s, items, old(rows))
              case Ok(t) => error.None? && rows == t
              case Err(e) => error == Some(e)
    {
      if items == [] { return None; }
      if s !in db.showtimes { return Some(ShowtimeNotFound); }
      var added := RowsForAll(s, items, CurrentIncluded(db, s));
      RowsIssueAll(rows, s, items, CurrentIncluded(db, s));
      InsertOnConflictDoNothing(added);
      return None;
    }

    /** The pending rows are updated in whatever order the query gave them. */
    method RestoreShowtimeEntitlements(db: Db, s: Id, items: seq<Item>) returns (error: Option<Error>)
      requires Indexed(rows)
      modifies this
      ensures match RestoreShowtime(db, s, items, old(rows))
              case Ok(t) => error.None? && rows == t
              case Err(e) => error == Some(e)
    {
      ghost var rights := rows;
      ghost var final := Reactivated(db, s, items, rights);
      var pending := set i: nat | 0 <= i < |rows| && IsPending(rows[i], items);
      while pending != {}
        invariant Halfway(rights, final, pending, rows) && Indexed(rows)
        invariant forall i: nat | i in pending :: i < |rights| && IsPending(rights[i], items)
        decreases |pending|
      {
        var i :| i in pending;
        var ok := Update(i, Decide(db, s, items, rows[i]));
        if !ok {
          RefusedMeansCollision(rights, final, pending, rows, i);
          return Some(UniqueViolation);
        }
        pending := pending - {i};
      }
      LastUpdate(rights, final, rows);
      error := SyncIncluded(db, s, items);
    }

    /** Runs in the caller's transaction: after an error the table is as it was. */
    method RestoreCancellationPending(db: Db, ids: seq<Id>) returns (error: Option<Error>)
      requires Indexed(rows)
      modifies this
      ensures match Restore(db, ids, old(rows))
              case Ok(t) => error.None? && rows == t
              case Err(e) => error == Some(e) && rows == old(rows)
    {
      if ids == [] {
        NoItems(db.items);
        return None;
      }
      var restored := ItemsIn(db.items, ids);
      var itemsByShowtime := GroupByShowtime(restored);
      var showtimes := SortedKeys(itemsByShowtime.Keys);
      error := RestoreInOrder(db, showtimes, restored, itemsByShowtime);
    }

    method RestoreInOrder(db: Db, showtimes: seq<Id>, ghost items: seq<Item>, groups: map<Id, seq<Item>>) returns (error: Option<Error>)
      requires Indexed(rows) && Grouped(items, groups)
      requires forall s <- showtimes :: s in groups
      modifies this
      ensures match RestoreEach(db, showtimes, items, old(rows))
              case Ok(t) => error.None? && rows == t
              case Err(e) => error == Some(e) && rows == old(rows)
    {
      var before := rows;
      for k := 0 to |showtimes|
        invariant RestoreEach(db, showtimes[..k], items, before) == Ok(rows)
        invariant Indexed(rows)
      {
        var s := showtimes[k];
        EachStep(db, showtimes, items, before, k, rows);
        EachIndexed(db, showtimes[..k + 1], items, before);
        error := RestoreShowtimeEntitlements(db, s, groups[s]);
        if error.Some? {
          rows := before;
          return;
        }
      }
      assert showtimes[..|showtimes|] == showtimes;
      return None;
    }

    static method GroupByShowtime(items: seq<Item>) returns (groups: map<Id, seq<Item>>)
      ensures Grouped(items, groups)
    {
      groups := map[];
      for i := 0 to |items|
        invariant Grouped(items[..i], groups)
      {
        var item := items[i];
        GroupMore(items[..i], groups, item);
        assert items[..i + 1] == items[..i] + [item];
        var group := if item.showtime in groups then groups[item.showtime] else [];
        groups := groups[item.showtime := group + [item]];
      }
      assert items[..|items|] == items;
    }

    static method SortedKeys(keys: set<Id>) returns (r: seq<Id>)
      ensures r == Sorted(keys)
    {
      r := [];
      var rest := keys;
      while rest != {}
        invariant r + Sorted(rest) == Sorted(keys)
        decreases |rest|
      {
        assert Least(rest) in rest;
        var m :| m in rest && forall x <- rest :: m <= x;
        assert m == Least(rest);
        assert Sorted(rest) == [m] + Sorted(rest - {m});
        r, rest := r + [m], rest - {m};
      }
    }

    // ----- the repair run -----

    static method LockCandidateTickets(items: seq<Item>, s: Id, ids: seq<Id>) returns (ok: bool)
      requires forall i, j | 0 <= i < j < |ids| :: ids[i] != ids[j]
      ensures ok <==> forall id <- ids :: id in Lockable(items, s, ids)
    {
      var locked := 0;
      var offset := 0;
      assert Lockable(items, s, ids[..0]) == {};
      while offset < |ids|
        invariant offset % REPAIR_CHUNK_SIZE == 0
        invariant locked == |Lockable(items, s, ids[..Clamp(offset, |ids|)])|
      {
        var to := Clamp(offset + REPAIR_CHUNK_SIZE, |ids|);
        ChunkSplit(ids, offset, to);
        LockableSplit(items, s, ids[..offset], ids[offset..to]);
        locked := locked + |Lockable(items, s, ids[offset..to])|;
        offset := offset + REPAIR_CHUNK_SIZE;
      }
      assert ids[..|ids|] == ids;
      AllLockable(items, s, ids);
      ok := locked == |ids|;
    }

    method RepairIncluded(db: Db, rights: seq<Right>, s: Id, digest: seq<Candidate> -> string, expected: Option<string>,
                          locked: seq<Item>, audit: Id) returns (r: Result<Report>)
      requires Indexed(rows)
      modifies this
      ensures match Repair(db, rights, s, digest, expected, locked, old(rows), audit)
              case Ok((report, t)) => r == Ok(report) && rows == t
              case Err(e) => r == Err(e) && rows == old(rows)
    {
      if s !in db.showtimes { return Err(ShowtimeNotFound); }
      var candidates := Candidates(db, rights, s);
      var ids := TicketIds(candidates);
      if expected.None? { return Ok(Report(|ids|, |candidates|, 0, None)); }
      if expected.value != digest(candidates) { return Err(CandidatesChanged); }
      var held := LockCandidateTickets(locked, s, ids);
      AllLockable(locked, s, ids);
      if !held { return Err(CandidatesChanged); }
      r := ApplyCandidates(s, candidates, |ids|, audit);
    }

    method ApplyCandidates(s: Id, candidates: seq<Candidate>, tickets: nat, audit: Id) returns (r: Result<Report>)
      requires Indexed(rows)
      modifies this
      ensures var t := old(rows) + RepairRows(s, candidates, audit);
        if Indexed(t) then r == Ok(Report(tickets, |candidates|, |candidates|, Some(audit))) && rows == t
        else r == Err(CandidatesChanged) && rows == old(rows)
    {
      ghost var added := RepairRows(s, candidates, audit);
      var before := rows;
      var appliedEntitlements := 0;
      var offset := 0;
      assert rows == before + added[..0];
      while offset < |candidates|
        invariant appliedEntitlements == Clamp(offset, |candidates|)
        invariant rows == before + added[..Clamp(offset, |candidates|)] && Indexed(rows)
      {
        var to := Clamp(offset + REPAIR_CHUNK_SIZE, |candidates|);
        RepairRowsSlice(s, candidates, audit, offset, to);
        NextChunk(before, added, offset, to);
        var inserted := RepairRows(s, candidates[offset..to], audit);
        var ok := Insert(inserted);
        if !ok {
          if Indexed(before + added) { PrefixIndexed(before, added, to); }
          rows := before;
          return Err(CandidatesChanged);
        }
        appliedEntitlements := appliedEntitlements + |inserted|;
        offset := offset + REPAIR_CHUNK_SIZE;
      }
      assert appliedEntitlements == |candidates|;
      assert added[..|candidates|] == added;
      r := Ok(Report(tickets, |candidates|, appliedEntitlements, Some(audit)));
    }
  }
}
