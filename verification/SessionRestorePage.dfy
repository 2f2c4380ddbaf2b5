/** The module state of session restore and the auth store, updated in place. */
module SessionRestorePage {
  import opened SessionRestore

  class AuthSession {
    // the store
    var accessToken: Option<Token>
    var user: Option<User>
    var isInitialized: bool
    var sessionRestorePending: bool
    // module variables
    var sessionGeneration: nat
    var unconfirmedAccessToken: Option<Token>
    var backgroundRestoreTimer: Option<Timer>
    var applyingRestoredSession: bool
    // suspended restores
    var restores: map<nat, Restore>
    var nextRestore: nat
    const hasWindow: bool

    function StoreView(): Store
      reads this
    {
      Store(accessToken, user, isInitialized, sessionRestorePending)
    }

    function View(): Page
      reads this
    {
      Page(StoreView(), sessionGeneration, unconfirmedAccessToken, backgroundRestoreTimer, restores, nextRestore, hasWindow)
    }

    constructor (hasWindow: bool)
      ensures View() == Init(hasWindow) && !applyingRestoredSession
    {
      accessToken, user, isInitialized, sessionRestorePending := None, None, false, false;
      sessionGeneration, unconfirmedAccessToken, backgroundRestoreTimer, applyingRestoredSession := 0, None, None, false;
      restores, nextRestore := map[], 0;
      this.hasWindow := hasWindow;
    }

    /** Runs after every update of the store that notifies. */
    method Subscriber(previous: Store)
      modifies this`sessionGeneration, this`unconfirmedAccessToken
      ensures applyingRestoredSession || FlagsOnly(previous, StoreView()) ==>
                sessionGeneration == old(sessionGeneration) && unconfirmedAccessToken == old(unconfirmedAccessToken)
      ensures !applyingRestoredSession && !FlagsOnly(previous, StoreView()) ==>
                sessionGeneration == old(sessionGeneration) + 1 && unconfirmedAccessToken == None
    {
      if applyingRestoredSession { return; }
      var flagsOnly := accessToken == previous.accessToken && user == previous.user
        && (isInitialized != previous.isInitialized || sessionRestorePending != previous.sessionRestorePending);
      if flagsOnly { return; }
      sessionGeneration := sessionGeneration + 1;
      unconfirmedAccessToken := None;
    }

    method StoreSetAuth(token: Token, u: Option<User>)
      modifies this
      ensures applyingRestoredSession == old(applyingRestoredSession)
      ensures View() == if applyingRestoredSession then old(View()).(store := Store(Some(token), u, true, false))
                        else SetAuth(old(View()), token, u)
    {
      var previous := StoreView();
      accessToken, user, isInitialized, sessionRestorePending := Some(token), u, true, false;
      Subscriber(previous);
    }

    method StoreClearAuth()
      requires !applyingRestoredSession
      modifies this
      ensures !applyingRestoredSession && View() == ClearAuth(old(View()))
    {
      var previous := StoreView();
      accessToken, user := None, None;
      Subscriber(previous);
    }

    method StoreSetInitialized()
      requires !applyingRestoredSession
      modifies this
      ensures !applyingRestoredSession && View() == SetInitialized(old(View()))
    {
      var previous := StoreView();
      isInitialized := true;
      Subscriber(previous);
    }

    method StoreSetPending(pending: bool)
      requires !applyingRestoredSession
      modifies this
      ensures !applyingRestoredSession && View() == SetPending(old(View()), pending)
    {
      if sessionRestorePending == pending { return; }
      var previous := StoreView();
      sessionRestorePending := pending;
      Subscriber(previous);
    }

    method ApplyRestoredSession(generation: nat, token: Token, u: User) returns (applied: bool)
      requires !applyingRestoredSession
      modifies this
      ensures !applyingRestoredSession && (View(), applied) == ApplyRestored(old(View()), generation, token, u)
    {
      if generation != sessionGeneration || accessToken.Some? { return false; }
      applyingRestoredSession := true;
      StoreSetAuth(token, Some(u));
      applyingRestoredSession := false;
      return true;
    }

    // ----- a restore, from one suspension to the next -----

    method Suspend(id: nat, r: Restore, phase: Phase)
      modifies this`restores
      ensures View() == Park(old(View()), id, r, phase)
    {
      restores := restores[id := r.(phase := phase)];
    }

    method BeginRestore(caller: Caller)
      modifies this`restores, this`nextRestore
      ensures View() == Begin(old(View()), caller)
    {
      var phase := Refreshing;
      if unconfirmedAccessToken.Some? { phase := ReadingUnconfirmed(unconfirmedAccessToken.value); }
      restores := restores[nextRestore := Restore(caller, sessionGeneration, phase)];
      nextRestore := nextRestore + 1;
    }

    method ApplyAndFinish(id: nat, r: Restore, token: Token, u: User)
      requires !applyingRestoredSession
      modifies this
      ensures !applyingRestoredSession && View() == Apply(old(View()), id, r, token, u)
    {
      var applied := ApplyRestoredSession(r.generation, token, u);
      Suspend(id, r, Finished(if applied then Restored else Superseded));
    }

    method UnconfirmedProfile(id: nat, r: Restore, token: Token, profile: Profile)
      requires !applyingRestoredSession
      modifies this
      ensures !applyingRestoredSession && View() == UnconfirmedRead(old(View()), id, r, token, profile)
    {
      if IsSuperseded(View(), r.generation) { Suspend(id, r, Finished(Superseded)); return; }
      if profile.ProfileUnavailable? { Suspend(id, r, Finished(Unavailable)); return; }
      unconfirmedAccessToken := None;
      if profile.Loaded? { ApplyAndFinish(id, r, token, profile.user); return; }
      Suspend(id, r, Refreshing);
    }

    method AfterRefresh(id: nat, r: Restore, refresh: Refresh)
      modifies this`restores
      ensures View() == RefreshAnswered(old(View()), id, r, refresh)
    {
      if IsSuperseded(View(), r.generation) { Suspend(id, r, Finished(Superseded)); return; }
      if refresh.NoSession? { Suspend(id, r, Finished(SignedOut)); return; }
      if refresh.RefreshUnavailable? { Suspend(id, r, Finished(Unavailable)); return; }
      Suspend(id, r, ReadingProfile(refresh.accessToken, 0));
    }

    method AfterProfile(id: nat, r: Restore, token: Token, tries: nat, profile: Profile)
      requires !applyingRestoredSession
      modifies this
      ensures !applyingRestoredSession && View() == ProfileRead(old(View()), id, r, token, tries, profile)
    {
      var superseded := IsSuperseded(View(), r.generation);
      if tries < |RESTORE_RETRY_DELAYS_MS| && profile.ProfileUnavailable? && !superseded {
        Suspend(id, r, Sleeping(token, tries));
        return;
      }
      if superseded { Suspend(id, r, Finished(Superseded)); return; }
      if profile.Loaded? { ApplyAndFinish(id, r, token, profile.user); return; }
      if profile.ProfileUnavailable? {
        unconfirmedAccessToken := Some(token);
        Suspend(id, r, Finished(Unavailable));
        return;
      }
      Suspend(id, r, Finished(SignedOut));
    }

    // ----- callers -----

    method Initialize()
      modifies this`restores, this`nextRestore
      ensures View() == InitializeAuth(old(View()))
    {
      if isInitialized { return; }
      if exists id <- restores :: restores[id].caller.Initial? { return; }
      BeginRestore(Initial);
    }

    method ScheduleBackgroundRestore(attempt: nat)
      requires !applyingRestoredSession
      modifies this
      ensures !applyingRestoredSession && View() == Schedule(old(View()), attempt)
    {
      if !hasWindow || backgroundRestoreTimer.Some? { return; }
      StoreSetPending(true);
      var last := |BACKGROUND_RESTORE_DELAYS_MS| - 1;
      var delayMs := BACKGROUND_RESTORE_DELAYS_MS[if attempt < last then attempt else last];
      backgroundRestoreTimer := Some(Timer(attempt, delayMs));
    }

    method Resume(id: nat, caller: Caller, outcome: Outcome)
      requires !applyingRestoredSession
      modifies this
      ensures !applyingRestoredSession && View() == Deliver(old(View()), id, caller, outcome)
    {
      restores := restores - {id};
      match caller
      case Initial =>
        if outcome.Unavailable? { ScheduleBackgroundRestore(0); }
        if !isInitialized { StoreSetInitialized(); }
      case Background(attempt) =>
        if outcome.Unavailable? { ScheduleBackgroundRestore(attempt + 1); return; }
        StoreSetPending(false);
    }

    method Fail(id: nat, caller: Caller)
      requires !applyingRestoredSession
      modifies this
      ensures !applyingRestoredSession && View() == Throw(old(View()), id, caller)
    {
      restores := restores - {id};
      if caller.Background? { StoreSetPending(false); }
    }

    method TimerCallback()
      requires !applyingRestoredSession && backgroundRestoreTimer.Some?
      modifies this
      ensures !applyingRestoredSession
      ensures View() == TimerFires(old(View()), old(backgroundRestoreTimer).value.attempt)
    {
      var attempt := backgroundRestoreTimer.value.attempt;
      backgroundRestoreTimer := None;
      if accessToken.Some? {
        unconfirmedAccessToken := None;
        StoreSetPending(false);
        return;
      }
      BeginRestore(Background(attempt));
    }
  }
}
