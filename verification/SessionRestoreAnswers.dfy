/**
 What the answers of the API lead to: which end a restore with a session, which
 sign the visitor out, and which keep the page retrying.
 */
module SessionRestoreAnswers {
  import opened SessionRestore
  import opened SessionRestoreSafety

  predicate IsAnswer(e: Event) {
    e.GotRefresh? || e.GotProfile?
  }

  predicate IsStaleAnswer(s: Page, e: Event)
    requires Enabled(s, e) && IsAnswer(e)
  {
    Stale(s, s.restores[e.id].generation)
  }

  /** The API cannot say whether there is a session: no refresh, or no profile even after the last delay. */
  predicate IsOutage(s: Page, e: Event)
    requires Enabled(s, e)
  {
    && IsAnswer(e) && !IsStaleAnswer(s, e)
    && match e
       case GotRefresh(_, refresh) => refresh.RefreshUnavailable?
       case GotProfile(id, profile) =>
         && profile.ProfileUnavailable?
         && match s.restores[id].phase
            case ReadingProfile(_, tries) => tries >= |RESTORE_RETRY_DELAYS_MS|
            case _ => true
  }

  /** The API says that there is no session: nothing to refresh, or its fresh token is rejected. */
  predicate IsRefusal(s: Page, e: Event)
    requires Enabled(s, e)
  {
    && IsAnswer(e) && !IsStaleAnswer(s, e)
    && match e
       case GotRefresh(_, refresh) => refresh.NoSession?
       case GotProfile(id, profile) => profile.Rejected? && s.restores[id].phase.ReadingProfile?
  }

  // ----- from the answer to the caller -----

  lemma ResultStays(s: Page, e: Event, id: nat)
    requires Inv(s) && Enabled(s, e) && id in s.restores && s.restores[id].phase.Finished? && id in Next(s, e).restores
    ensures Next(s, e).restores[id] == s.restores[id]
  {
  }

  /** A restore that has its result keeps it until its caller resumes. */
  lemma {:induction false} ResultIsKept(hasWindow: bool, states: seq<Page>, events: seq<Event>, j: nat, k: nat, id: nat)
    requires Behaviour(hasWindow, states, events) && j <= k < |states|
    requires id in states[j].restores && states[j].restores[id].phase.Finished? && id in states[k].restores
    ensures states[k].restores[id] == states[j].restores[id]
    decreases k - j
  {
    if j < k {
      Alive(hasWindow, states, events, j, j + 1, k, id);
      StateInv(hasWindow, states, events, j);
      ResultStays(states[j], events[j], id);
      ResultIsKept(hasWindow, states, events, j + 1, k, id);
    }
  }

  /** Between an answer and the resumption of the caller it leads to. */
  ghost predicate Answered(hasWindow: bool, states: seq<Page>, events: seq<Event>, j: nat, k: nat) {
    && Behaviour(hasWindow, states, events) && j < k < |events|
    && IsAnswer(events[j]) && events[k] == Resumed(events[j].id)
  }

  lemma OutcomeAt(hasWindow: bool, states: seq<Page>, events: seq<Event>, j: nat, k: nat)
    requires Answered(hasWindow, states, events, j, k)
    requires states[j + 1].restores[events[j].id].phase.Finished?
    ensures states[k].restores[events[j].id].phase == states[j + 1].restores[events[j].id].phase
  {
    ResultIsKept(hasWindow, states, events, j + 1, k, events[j].id);
  }

  lemma OutageFinishes(s: Page, e: Event)
    requires Enabled(s, e) && IsOutage(s, e) && s.restores[e.id].generation <= s.generation
    ensures e.id in Next(s, e).restores && Next(s, e).restores[e.id].phase == Finished(Unavailable)
  {
  }

  lemma RefusalFinishes(s: Page, e: Event)
    requires Enabled(s, e) && IsAnswer(e) && (IsStaleAnswer(s, e) || IsRefusal(s, e))
    requires s.restores[e.id].generation <= s.generation
    ensures e.id in Next(s, e).restores && Next(s, e).restores[e.id].phase.Finished?
    ensures !Next(s, e).restores[e.id].phase.outcome.Unavailable?
  {
  }

  // ----- an outage is outlasted -----

  /** Signed out because the API could not answer: the notice is up and a retry is on its way. */
  predicate Retrying(s: Page) {
    && s.hasWindow && s.store.accessToken.None? && s.store.sessionRestorePending
    && (HasBackground(s) || s.timer.Some?)
    && (s.timer.Some? ==> s.timer.value.delayMs <= 60000)
  }

  /** The retries come after ten seconds, thirty, and then every minute. */
  function NextRetry(caller: Caller): Timer {
    match caller
    case Initial => Timer(0, 10000)
    case Background(attempt) => Timer(attempt + 1, if attempt == 0 then 30000 else 60000)
  }

  lemma OutageStartsRetries(s: Page, e: Event)
    requires Inv(s) && Enabled(s, e) && e.Resumed? && s.restores[e.id].phase.outcome.Unavailable?
    requires s.hasWindow && s.store.accessToken.None?
    ensures Retrying(Next(s, e)) && Next(s, e).restores == map[]
    ensures Next(s, e).timer == Some(NextRetry(s.restores[e.id].caller))
  {
    forall id <- s.restores ensures id == e.id {}
  }

  /** After an outage the page is retrying as soon as the restore's caller resumes. */
  lemma OutageIsRetried(hasWindow: bool, states: seq<Page>, events: seq<Event>, j: nat, k: nat)
    requires Answered(hasWindow, states, events, j, k) && IsOutage(states[j], events[j])
    requires states[k].hasWindow && states[k].store.accessToken.None?
    ensures Retrying(states[k + 1]) && states[k + 1].restores == map[]
    ensures states[k + 1].timer == Some(NextRetry(states[k].restores[events[j].id].caller))
  {
    StateInv(hasWindow, states, events, j);
    StateInv(hasWindow, states, events, k);
    OutageFinishes(states[j], events[j]);
    OutcomeAt(hasWindow, states, events, j, k);
    OutageStartsRetries(states[k], events[k]);
  }

  lemma RefusalEnds(s: Page, e: Event)
    requires Inv(s) && Enabled(s, e) && e.Resumed? && !s.restores[e.id].phase.outcome.Unavailable?
    ensures Next(s, e).timer.None? && !Next(s, e).store.sessionRestorePending
  {
    forall id <- s.restores ensures id == e.id {}
  }

  /** After a refusal, or an answer that came too late to matter, no retry is left and no notice. */
  lemma RefusalIsFinal(hasWindow: bool, states: seq<Page>, events: seq<Event>, j: nat, k: nat)
    requires Answered(hasWindow, states, events, j, k)
    requires IsRefusal(states[j], events[j]) || IsStaleAnswer(states[j], events[j])
    ensures states[k + 1].timer.None? && !states[k + 1].store.sessionRestorePending
  {
    StateInv(hasWindow, states, events, j);
    StateInv(hasWindow, states, events, k);
    RefusalFinishes(states[j], events[j]);
    OutcomeAt(hasWindow, states, events, j, k);
    RefusalEnds(states[k], events[k]);
  }

  /** What ends the retries: a login, a session found, a refusal, an answer made stale by a logout, or a defect. */
  predicate EndsRetries(s: Page, e: Event)
    requires Enabled(s, e)
  {
    || e.LogIn? || e.Threw?
    || (IsAnswer(e) && (IsStaleAnswer(s, e) || IsRefusal(s, e)))
    || (e.GotProfile? && e.profile.Loaded?)
  }

  /** Every restore that has its result could not determine the session. */
  predicate AllUndetermined(s: Page) {
    forall id <- s.restores :: s.restores[id].phase.Finished? ==> s.restores[id].phase.outcome.Unavailable?
  }

  lemma StaysUndetermined(s: Page, e: Event)
    requires Inv(s) && AllUndetermined(s) && Enabled(s, e) && !EndsRetries(s, e)
    ensures AllUndetermined(Next(s, e))
  {
  }

  lemma RetryGoesOn(s: Page, e: Event)
    requires Inv(s) && Retrying(s) && AllUndetermined(s) && Enabled(s, e) && !EndsRetries(s, e)
    ensures Retrying(Next(s, e))
  {
    var t := Next(s, e);
    if e.Fired? {
      assert t.restores[s.nextRestore].caller.Background?;
    } else if HasBackground(s) && t.timer.None? {
      var id :| id in s.restores && s.restores[id].caller.Background?;
      assert id in t.restores && t.restores[id].caller == s.restores[id].caller;
    }
  }

  /**
   From an outage on the page keeps retrying, with at most a minute between retries,
   until the API gives a session or refuses one, or the user logs in.
   */
  lemma {:induction false} OutageKeepsRetrying(hasWindow: bool, states: seq<Page>, events: seq<Event>, j: nat, k: nat, n: nat)
    requires Answered(hasWindow, states, events, j, k) && IsOutage(states[j], events[j])
    requires states[k].hasWindow && states[k].store.accessToken.None? && k < n < |states|
    requires forall i | k < i < n :: !EndsRetries(states[i], events[i])
    ensures Retrying(states[n]) && AllUndetermined(states[n])
  {
    if n == k + 1 {
      OutageIsRetried(hasWindow, states, events, j, k);
    } else {
      OutageKeepsRetrying(hasWindow, states, events, j, k, n - 1);
      StateInv(hasWindow, states, events, n - 1);
      StaysUndetermined(states[n - 1], events[n - 1]);
      RetryGoesOn(states[n - 1], events[n - 1]);
    }
  }

  // ----- a session is found -----

  /** How often restore id waited before it read the profile again. */
  function Sleeps(events: seq<Event>, i: nat, j: nat, id: nat): nat
    requires i <= j <= |events|
  {
    if i == j then 0 else Sleeps(events, i, j - 1, id) + if events[j - 1] == Slept(id) then 1 else 0
  }

  /** Restore id got this token from its refresh, and the session did not change since. */
  ghost predicate RefreshedAt(hasWindow: bool, states: seq<Page>, events: seq<Event>, i: nat, j: nat, id: nat, token: Token) {
    && Behaviour(hasWindow, states, events) && i < j <= |events|
    && events[i] == GotRefresh(id, Refreshed(token)) && !Stale(states[i], states[i].restores[id].generation)
    && forall k | i < k < j :: !IsSessionChange(events[k])
  }

  /** Where restore id is with the token: reading the profile, or waiting to read it again. */
  predicate Reads(s: Page, id: nat, token: Token, sleeps: nat) {
    && id in s.restores && !Stale(s, s.restores[id].generation)
    && match s.restores[id].phase
       case ReadingProfile(t, tries) => t == token && tries == sleeps
       case Sleeping(t, tries) => t == token && tries == sleeps
       case _ => false
  }

  lemma ReadsOn(s: Page, e: Event, id: nat, token: Token, sleeps: nat)
    requires Inv(s) && Enabled(s, e) && !IsSessionChange(e) && Reads(s, id, token, sleeps)
    requires id in Next(s, e).restores && !Next(s, e).restores[id].phase.Finished?
    ensures Reads(Next(s, e), id, token, sleeps + if e == Slept(id) then 1 else 0)
  {
  }

  lemma RefreshLeadsToRead(s: Page, id: nat, token: Token)
    requires Inv(s) && Enabled(s, GotRefresh(id, Refreshed(token))) && !Stale(s, s.restores[id].generation)
    ensures Reads(Next(s, GotRefresh(id, Refreshed(token))), id, token, 0)
  {
  }

  lemma StillReading(hasWindow: bool, states: seq<Page>, events: seq<Event>, i: nat, j: nat, id: nat)
    requires Behaviour(hasWindow, states, events) && i < j < |states| && id in states[i].restores
    requires id in states[j].restores && !states[j].restores[id].phase.Finished?
    ensures id in states[j - 1].restores && !states[j - 1].restores[id].phase.Finished?
  {
    Alive(hasWindow, states, events, i, j - 1, j, id);
    if states[j - 1].restores[id].phase.Finished? { ResultIsKept(hasWindow, states, events, j - 1, j, id); }
  }

  lemma RefreshedBefore(hasWindow: bool, states: seq<Page>, events: seq<Event>, i: nat, j: nat, id: nat, token: Token)
    requires RefreshedAt(hasWindow, states, events, i, j, id, token) && i + 1 < j
    ensures RefreshedAt(hasWindow, states, events, i, j - 1, id, token) && !IsSessionChange(events[j - 1])
    ensures Enabled(states[j - 1], events[j - 1]) && states[j] == Next(states[j - 1], events[j - 1])
    ensures id in states[i].restores
  {
  }

  lemma FirstRead(hasWindow: bool, states: seq<Page>, events: seq<Event>, i: nat, id: nat, token: Token)
    requires RefreshedAt(hasWindow, states, events, i, i + 1, id, token)
    ensures Reads(states[i + 1], id, token, 0)
  {
    StateInv(hasWindow, states, events, i);
    RefreshLeadsToRead(states[i], id, token);
  }

  lemma NextRead(hasWindow: bool, states: seq<Page>, events: seq<Event>, i: nat, j: nat, id: nat, token: Token, sleeps: nat)
    requires RefreshedAt(hasWindow, states, events, i, j, id, token) && i + 1 < j
    requires id in states[j].restores && !states[j].restores[id].phase.Finished?
    requires Reads(states[j - 1], id, token, sleeps)
    ensures Reads(states[j], id, token, sleeps + if events[j - 1] == Slept(id) then 1 else 0)
  {
    StateInv(hasWindow, states, events, j - 1);
    RefreshedBefore(hasWindow, states, events, i, j, id, token);
    ReadsOn(states[j - 1], events[j - 1], id, token, sleeps);
  }

  /** A restore reads the profile with the token of its refresh, and has read it once more than it waited. */
  lemma {:induction false} ReadsWithItsToken(hasWindow: bool, states: seq<Page>, events: seq<Event>, i: nat, j: nat, id: nat, token: Token)
    requires RefreshedAt(hasWindow, states, events, i, j, id, token)
    requires id in states[j].restores && !states[j].restores[id].phase.Finished?
    ensures Reads(states[j], id, token, Sleeps(events, i + 1, j, id))
  {
    if j == i + 1 {
      FirstRead(hasWindow, states, events, i, id, token);
    } else {
      RefreshedBefore(hasWindow, states, events, i, j, id, token);
      StillReading(hasWindow, states, events, i, j, id);
      ReadsWithItsToken(hasWindow, states, events, i, j - 1, id, token);
      NextRead(hasWindow, states, events, i, j, id, token, Sleeps(events, i + 1, j - 1, id));
    }
  }

  /** A refreshed token whose profile loads becomes the session, if the session did not change in between. */
  lemma FoundSessionIsSet(hasWindow: bool, states: seq<Page>, events: seq<Event>, i: nat, j: nat, id: nat, token: Token, user: User)
    requires RefreshedAt(hasWindow, states, events, i, j, id, token) && j < |events|
    requires events[j] == GotProfile(id, Loaded(user))
    ensures states[j + 1].store == Store(Some(token), Some(user), true, false)
  {
    ReadsWithItsToken(hasWindow, states, events, i, j, id, token);
    StateInv(hasWindow, states, events, j);
  }

  /** A profile that cannot be read is read again after each of the delays, and after the last it is an outage. */
  lemma ProfileIsReadAgain(hasWindow: bool, states: seq<Page>, events: seq<Event>, i: nat, j: nat, id: nat, token: Token)
    requires RefreshedAt(hasWindow, states, events, i, j, id, token) && j < |events|
    requires events[j] == GotProfile(id, ProfileUnavailable)
    ensures IsOutage(states[j], events[j]) <==> Sleeps(events, i + 1, j, id) >= |RESTORE_RETRY_DELAYS_MS|
    ensures Enabled(states[j + 1], Slept(id)) <==> Sleeps(events, i + 1, j, id) < |RESTORE_RETRY_DELAYS_MS|
  {
    ReadsWithItsToken(hasWindow, states, events, i, j, id, token);
    StateInv(hasWindow, states, events, j);
  }

  /** A kept token is tried first: its profile makes it the session, its rejection leads to the refresh. */
  lemma KeptTokenIsTried(s: Page, id: nat, profile: Profile)
    requires Inv(s) && Enabled(s, GotProfile(id, profile)) && s.restores[id].phase.ReadingUnconfirmed?
    requires !IsStaleAnswer(s, GotProfile(id, profile))
    ensures var t := Next(s, GotProfile(id, profile));
      && (profile.Loaded? ==> t.store == Store(Some(s.restores[id].phase.token), Some(profile.user), true, false))
      && (forall refresh :: Enabled(t, GotRefresh(id, refresh)) <==> profile.Rejected?)
      && (profile.ProfileUnavailable? ==> t.unconfirmed == s.unconfirmed && IsOutage(s, GotProfile(id, profile)))
  {
  }

  /** A token whose profile could not be read is kept for the next retry. */
  lemma TokenIsKept(hasWindow: bool, states: seq<Page>, events: seq<Event>, i: nat, j: nat, id: nat, token: Token)
    requires RefreshedAt(hasWindow, states, events, i, j, id, token) && j < |events|
    requires events[j] == GotProfile(id, ProfileUnavailable) && IsOutage(states[j], events[j])
    ensures states[j + 1].unconfirmed == Some(token)
  {
    ReadsWithItsToken(hasWindow, states, events, i, j, id, token);
    StateInv(hasWindow, states, events, j);
  }

  /** Until the session changes, nothing but the next retry touches a kept token. */
  lemma KeptTokenStays(s: Page, e: Event, token: Token)
    requires Inv(s) && Enabled(s, e) && s.unconfirmed == Some(token) && !IsSessionChange(e) && !IsAnswer(e)
    requires s.store.accessToken.None?
    ensures Next(s, e).unconfirmed == Some(token)
  {
  }

  // ----- restores and sessions begin -----

  /** A new restore tries the kept token first, and the refresh cookie without one. */
  predicate StartsRestore(s: Page, t: Page, caller: Caller) {
    && s.nextRestore in t.restores && s.nextRestore !in s.restores
    && t.restores[s.nextRestore].caller == caller && t.restores[s.nextRestore].generation == s.generation
    && t.restores[s.nextRestore].phase ==
         match s.unconfirmed case Some(token) => ReadingUnconfirmed(token) case None => Refreshing
  }

  /** Mounting starts the first restore, and the timer a retry when there is still no session. */
  lemma RestoresStart(s: Page)
    requires Inv(s)
    ensures !s.store.isInitialized && s.restores == map[] ==> StartsRestore(s, Next(s, Mount), Initial)
    ensures s.store.isInitialized ==> Next(s, Mount) == s
    ensures s.timer.Some? && s.store.accessToken.None? ==>
              StartsRestore(s, Next(s, Fired), Background(s.timer.value.attempt)) && Next(s, Fired).timer.None?
    ensures s.timer.Some? && s.store.accessToken.Some? ==>
              && Next(s, Fired).restores == s.restores && Next(s, Fired).timer.None?
              && !Next(s, Fired).store.sessionRestorePending && Next(s, Fired).unconfirmed.None?
  {
  }

  /** A fresh page is not initialized; it is once its first restore resumed, or the user logged in. */
  lemma FirstRestoreInitializes(hasWindow: bool, s: Page, e: Event)
    requires Inv(s) && Enabled(s, e)
    requires e.LogIn? || (e.Resumed? && s.restores[e.id].caller.Initial?)
    ensures !Init(hasWindow).store.isInitialized && Init(hasWindow).hasWindow == hasWindow
    ensures Next(s, e).store.isInitialized
  {
  }

  /** A login is the session from then on, and after a logout there is none. */
  lemma SessionChangesAreMade(s: Page, token: Token, user: Option<User>)
    requires Inv(s)
    ensures Next(s, LogIn(token, user)).store == Store(Some(token), user, true, false)
    ensures var t := Next(s, LogOut);
      && t.store.accessToken.None? && t.store.user.None?
      && t.store.isInitialized == s.store.isInitialized && t.store.sessionRestorePending == s.store.sessionRestorePending
  {
  }

  /** A defect in a restore leaves nothing behind: no restore, no retry and no notice. */
  lemma DefectEnds(s: Page, id: nat)
    requires Inv(s) && id in s.restores
    ensures Enabled(s, Threw(id))
    ensures var t := Next(s, Threw(id)); t.restores == map[] && t.timer.None? && !t.store.sessionRestorePending
  {
    forall a <- s.restores ensures a == id {}
  }

  /** Logging in and out is always possible, and what a restore waits for can always come. */
  lemma RestoreCanGoOn(s: Page, id: nat, token: Token, user: Option<User>, profile: Profile, refresh: Refresh)
    requires Inv(s)
    ensures Enabled(s, LogIn(token, user)) && Enabled(s, LogOut) && Enabled(s, Mount)
    ensures id in s.restores ==>
              Enabled(s, match s.restores[id].phase
                         case ReadingUnconfirmed(_) | ReadingProfile(_, _) => GotProfile(id, profile)
                         case Refreshing => GotRefresh(id, refresh)
                         case Sleeping(_, _) => Slept(id)
                         case Finished(_) => Resumed(id))
    ensures s.store.sessionRestorePending && s.restores == map[] ==> Enabled(s, Fired)
  {
  }
}
