/**
 The booking store and the seat lock controller as they run: fields updated in
 place, one method per synchronous stretch. View() is the Page of SeatLockPage, and
 every method is proved to be the function of the same stretch.
 */
module SeatLockController {
  import P = SeatLockPage
  import opened SeatLockPage

  function Seats(s: seq<SeatKey>): set<SeatKey> {
    set k <- s
  }

  predicate Distinct(s: seq<SeatKey>) {
    forall i, j | 0 <= i < j < |s| :: s[i] != s[j]
  }

  lemma Append(s: seq<SeatKey>, k: SeatKey)
    ensures Seats(s + [k]) == Seats(s) + {k}
    ensures Distinct(s) && k !in Seats(s) ==> Distinct(s + [k])
  {
    forall x ensures x in Seats(s + [k]) <==> x in Seats(s) + {k} {
      assert x in s + [k] <==> x in s || x == k;
    }
  }

  /** The selection without one seat, in the same order. */
  function Without(s: seq<SeatKey>, k: SeatKey): seq<SeatKey> {
    if s == [] then []
    else Without(s[..|s| - 1], k) + (if s[|s| - 1] == k then [] else [s[|s| - 1]])
  }

  lemma {:induction false} WithoutSeats(s: seq<SeatKey>, k: SeatKey)
    ensures Seats(Without(s, k)) == Seats(s) - {k}
  {
    if s != [] {
      var init, last := s[..|s| - 1], s[|s| - 1];
      WithoutSeats(init, k);
      Append(init, last);
      Append(Without(init, k), last);
      assert s == init + [last];
    }
  }

  lemma {:induction false} WithoutDistinct(s: seq<SeatKey>, k: SeatKey)
    requires Distinct(s)
    ensures Distinct(Without(s, k))
  {
    if s != [] {
      var init, last := s[..|s| - 1], s[|s| - 1];
      WithoutDistinct(init, k);
      WithoutSeats(init, k);
      assert last !in Seats(init);
      Append(Without(init, k), last);
    }
  }

  lemma {:induction false} DistinctSize(s: seq<SeatKey>)
    requires Distinct(s)
    ensures |Seats(s)| == |s|
  {
    if s != [] {
      var init := s[..|s| - 1];
      DistinctSize(init);
      assert s == init + [s[|s| - 1]];
      assert Seats(s) == Seats(init) + {s[|s| - 1]};
    }
  }

  class BookingStore {
    var selectedShowtime: Option<Showtime>
    var selectedSeats: seq<SeatKey>

    ghost predicate Valid()
      reads this
    {
      Distinct(selectedSeats)
    }

    constructor ()
      ensures Valid() && selectedShowtime == None && selectedSeats == []
    {
      selectedShowtime, selectedSeats := None, [];
    }

    /** Appends the seat unless it is selected already. */
    method AddSeat(seat: SeatKey)
      requires Valid()
      modifies this`selectedSeats
      ensures Valid() && Seats(selectedSeats) == Seats(old(selectedSeats)) + {seat}
      ensures selectedSeats == if seat in old(selectedSeats) then old(selectedSeats) else old(selectedSeats) + [seat]
    {
      if seat !in selectedSeats {
        selectedSeats := selectedSeats + [seat];
      }
    }

    /** Filters the seat out and keeps the order of the others. */
    method RemoveSeat(seat: SeatKey)
      requires Valid()
      modifies this`selectedSeats
      ensures Valid() && selectedSeats == Without(old(selectedSeats), seat)
      ensures Seats(selectedSeats) == Seats(old(selectedSeats)) - {seat}
    {
      var kept: seq<SeatKey> := [];
      for i := 0 to |selectedSeats|
        invariant selectedSeats == old(selectedSeats)
        invariant kept == Without(selectedSeats[..i], seat)
      {
        assert selectedSeats[..i + 1][..i] == selectedSeats[..i];
        if selectedSeats[i] != seat {
          kept := kept + [selectedSeats[i]];
        }
      }
      assert selectedSeats[..|selectedSeats|] == selectedSeats;
      WithoutSeats(selectedSeats, seat);
      WithoutDistinct(selectedSeats, seat);
      selectedSeats := kept;
    }

    method ClearSeats()
      modifies this`selectedSeats
      ensures Valid() && selectedSeats == []
    {
      selectedSeats := [];
    }

    /** Selecting the showtime again keeps the selection: its seats are locked. */
    method SetShowtime(id: Option<Showtime>)
      requires Valid()
      modifies this
      ensures Valid() && selectedShowtime == id
      ensures selectedSeats == if id == old(selectedShowtime) then old(selectedSeats) else []
    {
      if selectedShowtime != id {
        selectedShowtime, selectedSeats := id, [];
      }
    }
  }

  /** The promises of the unlocks among these seats that a lock of another seat waits for. */
  ghost function UnlocksAmong(p: Page, seats: set<SeatRef>, except: SeatRef): set<nat>
    requires seats <= p.unlocks.Keys
  {
    set r <- seats | r != except && r.showtime == except.showtime :: p.unlocks[r]
  }

  ghost function LocksAmong(p: Page, seats: set<SeatRef>, except: SeatRef): set<nat>
    requires seats <= p.locks.Keys
  {
    set r <- seats | r != except && r.showtime == except.showtime && !IsSelected(p, r) :: p.locks[r].id
  }

  lemma OneMoreUnlock(p: Page, seats: set<SeatRef>, r: SeatRef, except: SeatRef)
    requires seats + {r} <= p.unlocks.Keys
    ensures UnlocksAmong(p, seats + {r}, except) ==
            UnlocksAmong(p, seats, except) + if r != except && r.showtime == except.showtime then {p.unlocks[r]} else {}
  {
  }

  lemma OneMoreLock(p: Page, seats: set<SeatRef>, r: SeatRef, except: SeatRef)
    requires seats + {r} <= p.locks.Keys
    ensures LocksAmong(p, seats + {r}, except) == LocksAmong(p, seats, except)
            + if r != except && r.showtime == except.showtime && !IsSelected(p, r) then {p.locks[r].id} else {}
  {
  }

  lemma AllReleases(p: Page, except: SeatRef)
    ensures P.CollectReleases(p, except) == UnlocksAmong(p, p.unlocks.Keys, except) + LocksAmong(p, p.locks.Keys, except)
  {
    assert (set r <- p.unlocks | r != except && r.showtime == except.showtime :: p.unlocks[r])
        == UnlocksAmong(p, p.unlocks.Keys, except);
    assert (set r <- p.locks | r != except && r.showtime == except.showtime && !IsSelected(p, r) :: p.locks[r].id)
        == LocksAmong(p, p.locks.Keys, except);
  }

  class Controller {
    const store: BookingStore
    const mountSeq: nat
    var pendingLocks: map<SeatRef, LockOp>
    var pendingUnlocks: map<SeatRef, nat>
    var pendingReleaseAll: map<Showtime, nat>
    var releaseGeneration: map<Showtime, nat>
    var lastServerResponse: map<Showtime, nat>
    var requests: map<nat, Request>
    var nextId: nat
    var sequence: nat

    function View(): Page
      reads this, store
    {
      Page(store.selectedShowtime, Seats(store.selectedSeats), pendingLocks, pendingUnlocks, pendingReleaseAll,
           releaseGeneration, lastServerResponse, requests, nextId, sequence, mountSeq)
    }

    /** The sequence number at mount is the baseline for snapshots. */
    constructor (store: BookingStore, sequence: nat)
      requires store.Valid()
      ensures this.store == store
      ensures View() == Page(store.selectedShowtime, Seats(store.selectedSeats), map[], map[], map[], map[], map[], map[],
                             0, sequence + 1, sequence + 1)
    {
      this.store := store;
      mountSeq, this.sequence := sequence + 1, sequence + 1;
      pendingLocks, pendingUnlocks, pendingReleaseAll := map[], map[], map[];
      releaseGeneration, lastServerResponse, requests, nextId := map[], map[], map[], 0;
    }

    predicate IsSeatSelected(ref: SeatRef)
      reads this, store
    {
      store.selectedShowtime == Some(ref.showtime) && ref.seat in store.selectedSeats
    }

    method Send(target: Target) returns (id: nat)
      modifies this`requests, this`nextId
      ensures View() == SendRequest(old(View()), target) && id == old(nextId)
    {
      id := nextId;
      requests := requests[id := Request(target, Sent)];
      nextId := nextId + 1;
    }

    method StartUnlock(ref: SeatRef) returns (promise: nat)
      modifies this
      ensures View() == P.StartUnlock(old(View()), ref) && promise == View().unlocks[ref]
    {
      if ref in pendingUnlocks {
        return pendingUnlocks[ref];
      }
      promise := Send(UnlockSeat(ref));
      pendingUnlocks := pendingUnlocks[ref := promise];
    }

    method CollectUnlocks(except: SeatRef) returns (releases: set<nat>)
      ensures releases == UnlocksAmong(View(), pendingUnlocks.Keys, except)
    {
      ghost var p := View();
      releases := {};
      var keys := pendingUnlocks.Keys;
      ghost var done := {};
      while keys != {}
        invariant done + keys == pendingUnlocks.Keys && releases == UnlocksAmong(p, done, except)
        decreases |keys|
      {
        var r :| r in keys;
        OneMoreUnlock(p, done, r, except);
        if r != except && r.showtime == except.showtime {
          releases := releases + {pendingUnlocks[r]};
        }
        keys := keys - {r};
        done := done + {r};
      }
      assert done == pendingUnlocks.Keys;
    }

    method CollectDroppedLocks(except: SeatRef) returns (releases: set<nat>)
      ensures releases == LocksAmong(View(), pendingLocks.Keys, except)
    {
      ghost var p := View();
      releases := {};
      var keys := pendingLocks.Keys;
      ghost var done := {};
      while keys != {}
        invariant done + keys == pendingLocks.Keys && releases == LocksAmong(p, done, except)
        decreases |keys|
      {
        var r :| r in keys;
        OneMoreLock(p, done, r, except);
        if r != except && r.showtime == except.showtime && !IsSeatSelected(r) {
          releases := releases + {pendingLocks[r].id};
        }
        keys := keys - {r};
        done := done + {r};
      }
      assert done == pendingLocks.Keys;
    }

    method CollectReleases(except: SeatRef) returns (releases: set<nat>)
      ensures releases == P.CollectReleases(View(), except)
    {
      var unlocks := CollectUnlocks(except);
      var locks := CollectDroppedLocks(except);
      releases := unlocks + locks;
      AllReleases(View(), except);
    }

    /** The body of the operation's loop up to its next await. */
    method ContinueLock(ref: SeatRef, extra: set<nat>)
      requires ref in pendingLocks
      modifies this
      ensures View() == P.ContinueLock(old(View()), ref, extra)
    {
      if !IsSeatSelected(ref) {
        pendingLocks := pendingLocks - {ref};
        return;
      }
      var blockers := extra;
      if ref in pendingUnlocks {
        blockers := blockers + {pendingUnlocks[ref]};
      }
      if ref.showtime in pendingReleaseAll {
        blockers := blockers + {pendingReleaseAll[ref.showtime]};
      }
      assert blockers == Blockers(old(View()), ref, extra);
      if blockers != {} {
        pendingLocks := pendingLocks[ref := pendingLocks[ref].(phase := Blocked(blockers))];
        return;
      }
      var generation := if ref.showtime in releaseGeneration then releaseGeneration[ref.showtime] else 0;
      var id := Send(LockSeat(ref));
      pendingLocks := pendingLocks[ref := pendingLocks[ref].(phase := Requesting(generation, id))];
    }

    method ReleasesToAwait(ref: SeatRef, perUserLimit: Option<nat>) returns (extra: set<nat>)
      requires store.Valid()
      ensures extra == ExtraReleases(View(), ref, perUserLimit)
    {
      var releases := CollectReleases(ref);
      DistinctSize(store.selectedSeats);
      extra := if perUserLimit.None? || |store.selectedSeats| + |releases| > perUserLimit.value then releases else {};
    }

    method LockSeatClick(ref: SeatRef, perUserLimit: Option<nat>)
      requires store.Valid()
      modifies this, store
      ensures store.Valid() && View() == LockClick(old(View()), ref, perUserLimit)
    {
      store.AddSeat(ref.seat);
      if ref in pendingLocks {
        return;
      }
      var extra := ReleasesToAwait(ref, perUserLimit);
      pendingLocks := pendingLocks[ref := LockOp(nextId, Blocked({}))];
      nextId := nextId + 1;
      assert View() == StartLock(old(View()), ref);
      ContinueLock(ref, extra);
    }

    method AwaitOwnUnlock(ref: SeatRef)
      requires ref in pendingLocks
      modifies this
      ensures View() == P.AwaitOwnUnlock(old(View()), ref)
    {
      var promise := StartUnlock(ref);
      pendingLocks := pendingLocks[ref := pendingLocks[ref].(phase := AwaitUnlock(promise))];
    }

    /** The awaited lock request came back. */
    method OnLockAnswer(ref: SeatRef, verdict: Verdict)
      requires store.Valid() && ref in pendingLocks && pendingLocks[ref].phase.Requesting?
      modifies this, store
      ensures store.Valid() && View() == ResumeLock(old(View()), ref, verdict)
    {
      var phase := pendingLocks[ref].phase;
      requests := requests - {phase.request};
      if verdict.Granted? {
        var generation := if ref.showtime in releaseGeneration then releaseGeneration[ref.showtime] else 0;
        if IsSeatSelected(ref) && generation == phase.generation {
          pendingLocks := pendingLocks - {ref};
        } else if ref.showtime in pendingReleaseAll {
          pendingLocks := pendingLocks[ref := pendingLocks[ref].(phase := AwaitReleaseAll(pendingReleaseAll[ref.showtime]))];
        } else {
          AwaitOwnUnlock(ref);
        }
        return;
      }
      var stillWanted := IsSeatSelected(ref);
      if stillWanted {
        store.RemoveSeat(ref.seat);
      }
      if stillWanted || verdict.Refused? {
        pendingLocks := pendingLocks - {ref};
      } else {
        AwaitOwnUnlock(ref);
      }
    }

    /** The promises the operation waited for have settled. */
    method OnSettled(ref: SeatRef)
      requires ref in pendingLocks && !pendingLocks[ref].phase.Requesting?
      modifies this
      ensures View() == WakeLock(old(View()), ref)
    {
      if pendingLocks[ref].phase.AwaitReleaseAll? {
        AwaitOwnUnlock(ref);
      } else {
        ContinueLock(ref, {});
      }
    }

    method OnUnlockAnswer(ref: SeatRef)
      requires ref in pendingUnlocks
      modifies this
      ensures View() == SettleUnlock(old(View()), ref)
    {
      requests := requests - {pendingUnlocks[ref]};
      pendingUnlocks := pendingUnlocks - {ref};
    }

    method OnReleaseAllAnswer(s: Showtime)
      requires s in pendingReleaseAll
      modifies this
      ensures View() == SettleReleaseAll(old(View()), s)
    {
      requests := requests - {pendingReleaseAll[s]};
      pendingReleaseAll := pendingReleaseAll - {s};
    }

    method ReleaseSeat(ref: SeatRef)
      requires store.Valid()
      modifies this, store
      ensures store.Valid() && View() == ReleaseClick(old(View()), ref)
    {
      if store.selectedShowtime == Some(ref.showtime) {
        store.RemoveSeat(ref.seat);
      }
      if ref in pendingLocks {
        return;
      }
      var _ := StartUnlock(ref);
    }

    method ReleaseAll(s: Showtime)
      modifies this
      ensures View() == StartReleaseAll(old(View()), s)
    {
      var generation := if s in releaseGeneration then releaseGeneration[s] else 0;
      releaseGeneration := releaseGeneration[s := generation + 1];
      if s in pendingReleaseAll {
        return;
      }
      var promise := Send(UnlockAll(s));
      pendingReleaseAll := pendingReleaseAll[s := promise];
    }

    /** The page's clear button: the selection goes with the locks. */
    method ClearSelection()
      requires store.Valid() && store.selectedShowtime.Some?
      modifies this, store
      ensures store.Valid() && View() == ClearClick(old(View()))
    {
      store.ClearSeats();
      ReleaseAll(store.selectedShowtime.value);
    }

    /** The page leaves a showtime for another one, or for none. */
    method ChangeShowtime(next: Option<Showtime>, release: bool)
      requires store.Valid()
      modifies this, store
      ensures store.Valid() && View() == SwitchShowtime(old(View()), next, release)
    {
      if release && store.selectedShowtime.Some? {
        ReleaseAll(store.selectedShowtime.value);
      }
      store.SetShowtime(next);
    }

    method MarkServerResponse(s: Showtime)
      modifies this
      ensures View() == MarkResponse(old(View()), s)
    {
      sequence := sequence + 1;
      lastServerResponse := lastServerResponse[s := sequence];
    }

    method HasPendingOperationsFor(s: Showtime) returns (pending: bool)
      ensures pending == HasPendingFor(View(), s)
    {
      if s in pendingReleaseAll { return true; }
      var keys := pendingLocks.Keys;
      while keys != {}
        invariant keys <= pendingLocks.Keys
        invariant forall r <- pendingLocks.Keys - keys :: r.showtime != s
        decreases |keys|
      {
        var r :| r in keys;
        keys := keys - {r};
        if r.showtime == s { return true; }
      }
      assert forall r <- pendingLocks :: r.showtime != s;
      keys := pendingUnlocks.Keys;
      while keys != {}
        invariant keys <= pendingUnlocks.Keys
        invariant forall r <- pendingUnlocks.Keys - keys :: r.showtime != s
        decreases |keys|
      {
        var r :| r in keys;
        keys := keys - {r};
        if r.showtime == s { return true; }
      }
      assert forall r <- pendingUnlocks :: r.showtime != s;
      return false;
    }

    method CheckSnapshot(requestSeq: nat, s: Showtime) returns (current: bool)
      ensures current == IsSnapshotCurrent(View(), requestSeq, s)
    {
      var pending := HasPendingOperationsFor(s);
      var baseline := if s in lastServerResponse then lastServerResponse[s] else mountSeq;
      current := !pending && requestSeq >= baseline;
    }
  }
}
