/** What restoring never does, over every interleaving of answers, logins and logouts. */
module SessionRestoreSafety {
  import opened SessionRestore

  ghost predicate Behaviour(hasWindow: bool, states: seq<Page>, events: seq<Event>) {
    && |states| == |events| + 1 && states[0] == Init(hasWindow)
    && forall i | 0 <= i < |events| :: Enabled(states[i], events[i]) && states[i + 1] == Next(states[i], events[i])
  }

  lemma {:induction false} StateInv(hasWindow: bool, states: seq<Page>, events: seq<Event>, j: nat)
    requires Behaviour(hasWindow, states, events) && j < |states|
    ensures Inv(states[j])
  {
    if j == 0 {
      InitInv(hasWindow);
    } else {
      StateInv(hasWindow, states, events, j - 1);
      StepInv(states[j - 1], events[j - 1]);
    }
  }

  // ----- one restore at a time, and the notice -----

  /** Two restores are never in flight together, nor is one while the next is scheduled. */
  lemma OneRestoreAtATime(hasWindow: bool, states: seq<Page>, events: seq<Event>, j: nat, a: nat, b: nat)
    requires Behaviour(hasWindow, states, events) && j < |states|
    requires a in states[j].restores
    ensures b in states[j].restores ==> a == b
    ensures states[j].timer.None?
  {
    StateInv(hasWindow, states, events, j);
  }

  /** The notice is up only with a retry armed or a background restore in flight. */
  lemma NoticeHasRetry(hasWindow: bool, states: seq<Page>, events: seq<Event>, j: nat)
    requires Behaviour(hasWindow, states, events) && j < |states| && states[j].store.sessionRestorePending
    ensures states[j].timer.Some? || exists id <- states[j].restores :: states[j].restores[id].caller.Background?
  {
    StateInv(hasWindow, states, events, j);
  }

  // ----- superseded restores -----

  /** A session exists, or changed since generation g. */
  predicate Stale(s: Page, g: nat) {
    s.generation > g || s.store.accessToken.Some?
  }

  lemma StaleStays(s: Page, e: Event, g: nat)
    requires Inv(s) && Enabled(s, e) && g <= s.generation && Stale(s, g)
    ensures Stale(Next(s, e), g)
  {
  }

  lemma ChangeMakesStale(s: Page, e: Event)
    requires Inv(s) && Enabled(s, e) && IsSessionChange(e)
    ensures Stale(Next(s, e), s.generation)
  {
  }

  /** Only a login, logout or renewal counts as a session change. */
  lemma GenerationCountsChanges(s: Page, e: Event)
    requires Inv(s) && Enabled(s, e)
    ensures Next(s, e).generation <= s.generation + 1
    ensures Next(s, e).generation > s.generation <==>
              IsSessionChange(e) && !FlagsOnly(s.store, Next(s, e).store)
  {
  }

  /** The step lets restore id set the session. */
  predicate Applies(s: Page, e: Event, id: nat)
    requires Enabled(s, e)
  {
    id in s.restores && !s.restores[id].phase.Finished?
    && id in Next(s, e).restores && Next(s, e).restores[id].phase == Finished(Restored)
  }

  lemma ApplyIsFresh(s: Page, e: Event, id: nat)
    requires Inv(s) && Enabled(s, e) && Applies(s, e, id)
    ensures !Stale(s, s.restores[id].generation)
    ensures e.GotProfile? && e.id == id && e.profile.Loaded?
    ensures s.restores[id].phase.ReadingUnconfirmed? || s.restores[id].phase.ReadingProfile?
    ensures Next(s, e).store == Store(Some(s.restores[id].phase.token), Some(e.profile.user), true, false)
  {
  }

  lemma KeepsGeneration(s: Page, e: Event, id: nat)
    requires Inv(s) && Enabled(s, e) && id in s.restores && id in Next(s, e).restores
    ensures Next(s, e).restores[id].generation == s.restores[id].generation
  {
  }

  lemma NeverReused(s: Page, e: Event, id: nat)
    requires Inv(s) && Enabled(s, e) && id < s.nextRestore && id !in s.restores
    ensures id !in Next(s, e).restores && id < Next(s, e).nextRestore
  {
  }

  lemma {:induction false} GoneStaysGone(hasWindow: bool, states: seq<Page>, events: seq<Event>, i: nat, j: nat, id: nat)
    requires Behaviour(hasWindow, states, events) && i <= j < |states|
    requires id < states[i].nextRestore && id !in states[i].restores
    ensures id !in states[j].restores
    decreases j - i
  {
    if i < j {
      StateInv(hasWindow, states, events, i);
      NeverReused(states[i], events[i], id);
      GoneStaysGone(hasWindow, states, events, i + 1, j, id);
    }
  }

  /** From the moment restore id is stale for its generation it stays so. */
  lemma {:induction false} StaleRestore(hasWindow: bool, states: seq<Page>, events: seq<Event>, i: nat, j: nat, id: nat)
    requires Behaviour(hasWindow, states, events) && i <= j < |states|
    requires id in states[i].restores && id in states[j].restores && Stale(states[i], states[i].restores[id].generation)
    ensures Stale(states[j], states[j].restores[id].generation)
    decreases j - i
  {
    if i < j {
      StateInv(hasWindow, states, events, i);
      StateInv(hasWindow, states, events, i + 1);
      if id !in states[i + 1].restores {
        IdsAreUsed(states[i], events[i], id);
        GoneStaysGone(hasWindow, states, events, i + 1, j, id);
      }
      KeepsGeneration(states[i], events[i], id);
      StaleStays(states[i], events[i], states[i].restores[id].generation);
      StaleRestore(hasWindow, states, events, i + 1, j, id);
    }
  }

  lemma IdsAreUsed(s: Page, e: Event, id: nat)
    requires Inv(s) && Enabled(s, e) && id in s.restores
    ensures id < Next(s, e).nextRestore
  {
  }

  /** A restore sets the session only if no login, logout or renewal happened since it began. */
  lemma RestoreIsCurrent(hasWindow: bool, states: seq<Page>, events: seq<Event>, i: nat, k: nat, j: nat, id: nat)
    requires Behaviour(hasWindow, states, events) && i < k < j < |events|
    requires id !in states[i].restores && id in states[i + 1].restores
    requires Applies(states[j], events[j], id)
    ensures !IsSessionChange(events[k])
  {
    StateInv(hasWindow, states, events, k);
    StateInv(hasWindow, states, events, j);
    ApplyIsFresh(states[j], events[j], id);
    if IsSessionChange(events[k]) {
      Alive(hasWindow, states, events, i + 1, k, j, id);
      ChangeMakesStale(states[k], events[k]);
      StaleRestore(hasWindow, states, events, k + 1, j, id);
    }
  }

  lemma Alive(hasWindow: bool, states: seq<Page>, events: seq<Event>, i: nat, k: nat, j: nat, id: nat)
    requires Behaviour(hasWindow, states, events) && i <= k <= j < |states|
    requires id in states[i].restores && id in states[j].restores
    ensures id in states[k].restores
  {
    StateInv(hasWindow, states, events, i);
    UsedStaysUsed(hasWindow, states, events, i, k, id);
    if id !in states[k].restores { GoneStaysGone(hasWindow, states, events, k, j, id); }
  }

  lemma {:induction false} UsedStaysUsed(hasWindow: bool, states: seq<Page>, events: seq<Event>, i: nat, k: nat, id: nat)
    requires Behaviour(hasWindow, states, events) && i <= k < |states| && id < states[i].nextRestore
    ensures id < states[k].nextRestore
    decreases k - i
  {
    if i < k {
      UsedMore(states[i], events[i]);
      UsedStaysUsed(hasWindow, states, events, i + 1, k, id);
    }
  }

  lemma UsedMore(s: Page, e: Event)
    requires Enabled(s, e)
    ensures s.nextRestore <= Next(s, e).nextRestore
  {
  }

  /** Restoring never replaces a session that exists, and otherwise writes no more than its flags or its own result. */
  lemma SessionIsNeverReplaced(s: Page, e: Event)
    requires Inv(s) && Enabled(s, e) && !IsSessionChange(e)
    ensures s.store.accessToken.Some? ==>
              Next(s, e).store.accessToken == s.store.accessToken && Next(s, e).store.user == s.store.user
    ensures Next(s, e).store.accessToken != s.store.accessToken ==>
              e.GotProfile? && Applies(s, e, e.id)
  {
  }

  // ----- where a restored token comes from -----

  /** The token was issued by a refresh answered before step j, and the session did not change since. */
  ghost predicate IssuedBefore(events: seq<Event>, j: nat, token: Token)
    requires j <= |events|
  {
    exists i | 0 <= i < j :: IssuedAt(events, i, j, token)
  }

  ghost predicate IssuedAt(events: seq<Event>, i: nat, j: nat, token: Token)
    requires i < j <= |events|
  {
    && events[i].GotRefresh? && events[i].refresh == Refreshed(token)
    && forall k | i <= k < j :: !IsSessionChange(events[k])
  }

  lemma IssuedLater(events: seq<Event>, j: nat, token: Token)
    requires j < |events| && IssuedBefore(events, j, token) && !IsSessionChange(events[j])
    ensures IssuedBefore(events, j + 1, token)
  {
    var i :| 0 <= i < j && IssuedAt(events, i, j, token);
    assert IssuedAt(events, i, j + 1, token);
  }

  /** The token this restore holds, once it has one. */
  function Held(phase: Phase): Option<Token> {
    match phase
    case ReadingUnconfirmed(token) => Some(token)
    case ReadingProfile(token, _) => Some(token)
    case Sleeping(token, _) => Some(token)
    case Refreshing => None
    case Finished(_) => None
  }

  ghost predicate Origin(states: seq<Page>, events: seq<Event>, j: nat)
    requires j <= |events| < |states|
  {
    && (states[j].unconfirmed.Some? ==> IssuedBefore(events, j, states[j].unconfirmed.value))
    && forall id <- states[j].restores :: RestoreOrigin(states[j], events, j, states[j].restores[id])
  }

  ghost predicate RestoreOrigin(s: Page, events: seq<Event>, j: nat, r: Restore)
    requires j <= |events|
  {
    !Stale(s, r.generation) && Held(r.phase).Some? ==> IssuedBefore(events, j, Held(r.phase).value)
  }

  /** A change of session forgets the kept token. */
  lemma ChangeForgetsToken(s: Page, e: Event)
    requires Inv(s) && Enabled(s, e) && IsSessionChange(e)
    ensures Next(s, e).unconfirmed.None?
  {
  }

  /** A token is held only because it was held before, or kept, or just issued. */
  lemma HeldFrom(s: Page, e: Event, id: nat)
    requires Inv(s) && Enabled(s, e) && id in Next(s, e).restores
    ensures var r := Next(s, e).restores[id];
      Held(r.phase).Some? && !Stale(Next(s, e), r.generation) ==>
        || (id in s.restores && Held(s.restores[id].phase) == Held(r.phase) && !Stale(s, s.restores[id].generation))
        || s.unconfirmed == Held(r.phase)
        || (e.GotRefresh? && e.refresh == Refreshed(Held(r.phase).value))
  {
  }

  lemma KeptFrom(s: Page, e: Event)
    requires Inv(s) && Enabled(s, e) && Next(s, e).unconfirmed.Some?
    ensures || s.unconfirmed == Next(s, e).unconfirmed
            || (e.GotProfile? && Held(s.restores[e.id].phase) == Next(s, e).unconfirmed && !Stale(s, s.restores[e.id].generation))
  {
  }

  lemma ChangeIsStale(s: Page, e: Event, id: nat)
    requires Inv(s) && Enabled(s, e) && IsSessionChange(e) && id in Next(s, e).restores
    ensures Stale(Next(s, e), Next(s, e).restores[id].generation)
  {
  }

  lemma RestoreOriginStep(s: Page, events: seq<Event>, j: nat, id: nat)
    requires Inv(s) && j < |events| && Enabled(s, events[j]) && id in Next(s, events[j]).restores
    requires s.unconfirmed.Some? ==> IssuedBefore(events, j, s.unconfirmed.value)
    requires id in s.restores ==> RestoreOrigin(s, events, j, s.restores[id])
    ensures RestoreOrigin(Next(s, events[j]), events, j + 1, Next(s, events[j]).restores[id])
  {
    var t := Next(s, events[j]);
    var r := t.restores[id];
    HeldFrom(s, events[j], id);
    if IsSessionChange(events[j]) {
      ChangeIsStale(s, events[j], id);
    } else if Held(r.phase).Some? && !Stale(t, r.generation) {
      var token := Held(r.phase).value;
      if events[j].GotRefresh? && events[j].refresh == Refreshed(token) {
        assert IssuedAt(events, j, j + 1, token);
      } else {
        IssuedLater(events, j, token);
      }
    }
  }

  lemma {:induction false} OriginHolds(hasWindow: bool, states: seq<Page>, events: seq<Event>, j: nat)
    requires Behaviour(hasWindow, states, events) && j <= |events|
    ensures Origin(states, events, j)
  {
    if j > 0 {
      var s, e := states[j - 1], events[j - 1];
      OriginHolds(hasWindow, states, events, j - 1);
      StateInv(hasWindow, states, events, j - 1);
      forall id <- states[j].restores ensures RestoreOrigin(states[j], events, j, states[j].restores[id]) {
        RestoreOriginStep(s, events, j - 1, id);
      }
      if states[j].unconfirmed.Some? {
        KeptFrom(s, e);
        if IsSessionChange(e) { ChangeForgetsToken(s, e); } else { IssuedLater(events, j - 1, states[j].unconfirmed.value); }
      }
    }
  }

  /** A kept token was issued with no change of session since. */
  lemma UnconfirmedIsCurrent(hasWindow: bool, states: seq<Page>, events: seq<Event>, j: nat)
    requires Behaviour(hasWindow, states, events) && j <= |events| && states[j].unconfirmed.Some?
    ensures IssuedBefore(events, j, states[j].unconfirmed.value)
  {
    OriginHolds(hasWindow, states, events, j);
  }

  /** A restored session is the one the refresh cookie gave, with no change of session since the refresh. */
  lemma RestoredTokenIsCurrent(hasWindow: bool, states: seq<Page>, events: seq<Event>, j: nat, id: nat)
    requires Behaviour(hasWindow, states, events) && j < |events| && Applies(states[j], events[j], id)
    ensures states[j + 1].store.accessToken.Some? && IssuedBefore(events, j, states[j + 1].store.accessToken.value)
  {
    StateInv(hasWindow, states, events, j);
    OriginHolds(hasWindow, states, events, j);
    ApplyIsFresh(states[j], events[j], id);
    assert RestoreOrigin(states[j], events, j, states[j].restores[id]);
  }
}
