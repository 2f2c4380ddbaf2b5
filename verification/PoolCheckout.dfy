/**
 Guarded checkouts of a database pool: a client whose first statement is a
 rejected `begin` goes back to the pool, and every client goes back once. The
 guard stores its query and release functions on the client object, which later
 checkouts of the same client share.
 */
module PoolCheckout {
  import opened Texts

  datatype Option<+T> = None | Some(value: T)

  type ClientId = nat

  /** A client's query function: its own, or the wrapper of a checkout. */
  datatype QueryFunction = Own | Wrapper(checkout: nat)

  /** A client's release function; a checkout's guard stays on the client until the next one. */
  datatype ReleaseFunction = Unguarded | Guard(checkout: nat)

  /** The pool discards a client that comes back with an error. */
  datatype Place = Idle | Out(checkout: nat) | Discarded

  datatype Client = Client(query: QueryFunction, release: ReleaseFunction, place: Place)

  /** What the closures of one checkout remember. givenBack: calls of the pool's release, and whether with an error. */
  datatype Checkout = Checkout(
    client: ClientId, originalQuery: QueryFunction, released: bool, firstQuery: bool, beginPending: bool, givenBack: seq<bool>)

  datatype Pool = Pool(clients: map<ClientId, Client>, checkouts: seq<Checkout>)

  // ----- begin statements -----

  function Lower(c: char): char {
    if 'A' <= c <= 'Z' then c + ('a' - 'A') else c
  }

  predicate IsWordChar(c: char) {
    'a' <= c <= 'z' || 'A' <= c <= 'Z' || '0' <= c <= '9' || c == '_'
  }

  /** None: the query argument has no text. */
  predicate IsBeginStatement(text: Option<string>) {
    text.Some? &&
    var s := TrimStart(text.value);
      && |s| >= 5
      && Lower(s[0]) == 'b' && Lower(s[1]) == 'e' && Lower(s[2]) == 'g' && Lower(s[3]) == 'i' && Lower(s[4]) == 'n'
      && (|s| == 5 || !IsWordChar(s[5]))
  }

  predicate AreSpaces(s: string) {
    forall i | 0 <= i < |s| :: IsSpace(s[i])
  }

  /** The word begin in upper or lower case letters. */
  predicate IsBeginWord(word: string) {
    && |word| == 5
    && word[0] in {'b', 'B'} && word[1] in {'e', 'E'} && word[2] in {'g', 'G'} && word[3] in {'i', 'I'} && word[4] in {'n', 'N'}
  }

  lemma {:induction false} TrimStartSplits(s: string) returns (space: string)
    ensures AreSpaces(space) && s == space + TrimStart(s)
  {
    space := "";
    if s != "" && IsSpace(s[0]) {
      space := TrimStartSplits(s[1..]);
      space := [s[0]] + space;
    }
  }

  lemma {:induction false} TrimStartOf(space: string, word: string)
    requires AreSpaces(space) && word != "" && !IsSpace(word[0])
    ensures TrimStart(space + word) == word
  {
    if space == "" {
      assert space + word == word;
    } else {
      assert (space + word)[1..] == space[1..] + word;
      TrimStartOf(space[1..], word);
    }
  }

  /** White space, the word begin, and then nothing or a character that does not go on with the word. */
  predicate ReadsBegin(space: string, word: string, rest: string) {
    AreSpaces(space) && IsBeginWord(word) && (rest == "" || !IsWordChar(rest[0]))
  }

  lemma BeginWordStarts(space: string, word: string, rest: string)
    requires ReadsBegin(space, word, rest)
    ensures IsBeginStatement(Some(space + (word + rest)))
  {
    TrimStartOf(space, word + rest);
  }

  /** Which statements count as a begin. */
  lemma BeginStatementExactly(text: string)
    ensures IsBeginStatement(Some(text)) <==>
            exists space: string, word: string, rest: string :: ReadsBegin(space, word, rest) && text == space + (word + rest)
    ensures !IsBeginStatement(None)
  {
    if IsBeginStatement(Some(text)) {
      var space := TrimStartSplits(text);
      var s := TrimStart(text);
      assert s == s[..5] + s[5..];
      assert ReadsBegin(space, s[..5], s[5..]) && text == space + (s[..5] + s[5..]);
    }
    if space: string, word: string, rest: string :| ReadsBegin(space, word, rest) && text == space + (word + rest) {
      BeginWordStarts(space, word, rest);
    }
  }

  // ----- one checkout -----

  function Open(p: Pool, c: ClientId): Pool {
    p.(clients := p.clients[c := Client(Own, Unguarded, Idle)])
  }

  function TakeOut(p: Pool, c: ClientId): Pool
    requires c in p.clients
  {
    var k := |p.checkouts|;
    Pool(p.clients[c := Client(Wrapper(k), Guard(k), Out(k))],
         p.checkouts + [Checkout(c, p.clients[c].query, false, true, false, [])])
  }

  /** The guard's release: the first call puts the client's own query back and returns the client. */
  function GiveBack(p: Pool, k: nat, withError: bool): Pool
    requires k < |p.checkouts| && p.checkouts[k].client in p.clients
  {
    var o := p.checkouts[k];
    if o.released then p
    else
      var client := p.clients[o.client].(query := o.originalQuery, place := if withError then Discarded else Idle);
      Pool(p.clients[o.client := client],
           p.checkouts[k := o.(released := true, givenBack := o.givenBack + [withError])])
  }

  /** The wrapper's query. isPromise: it answers with a promise, as it does without a callback. */
  function QueryThrough(p: Pool, k: nat, text: Option<string>, isPromise: bool): Pool
    requires k < |p.checkouts|
  {
    var o := p.checkouts[k];
    var isBegin := o.firstQuery && IsBeginStatement(text);
    p.(checkouts := p.checkouts[k := o.(firstQuery := false, beginPending := o.beginPending || (isBegin && isPromise))])
  }

  function BeginSettles(p: Pool, k: nat): Pool
    requires k < |p.checkouts|
  {
    p.(checkouts := p.checkouts[k := p.checkouts[k].(beginPending := false)])
  }

  // ----- holders -----

  predicate HasClients(p: Pool) {
    forall k | 0 <= k < |p.checkouts| :: p.checkouts[k].client in p.clients
  }

  /** The client that was handed out at checkout j; its holder may keep it for ever. */
  function ClientOf(p: Pool, j: nat): Client
    requires HasClients(p) && j < |p.checkouts|
  {
    p.clients[p.checkouts[j].client]
  }

  /** client.release(...): whichever guard is on the client by now. */
  function HolderRelease(p: Pool, j: nat, withError: bool): Pool
    requires HasClients(p) && j < |p.checkouts|
  {
    match ClientOf(p, j).release
    case Guard(k) => if k < |p.checkouts| then GiveBack(p, k, withError) else p
    case Unguarded => p
  }

  /** client.query(...): whichever wrapper is on the client by now, or the client's own query. */
  function HolderQuery(p: Pool, j: nat, text: Option<string>, isPromise: bool): Pool
    requires HasClients(p) && j < |p.checkouts|
  {
    match ClientOf(p, j).query
    case Wrapper(k) => if k < |p.checkouts| then QueryThrough(p, k, text, isPromise) else p
    case Own => p
  }

  datatype Event =
    | Opens(client: ClientId)
    | Connects(client: ClientId)
    | Queries(holder: nat, text: Option<string>, isPromise: bool)
    | Rejects(checkout: nat)
    | Resolves(checkout: nat)
    | Releases(holder: nat, withError: bool)

  /** Any holder may use its client at any time, also after it went back; the pool hands out idle clients. */
  predicate Enabled(p: Pool, e: Event) {
    match e
    case Opens(c) => c !in p.clients
    case Connects(c) => c in p.clients && p.clients[c].place.Idle?
    case Queries(j, _, _) => j < |p.checkouts|
    case Rejects(k) => k < |p.checkouts| && p.checkouts[k].beginPending
    case Resolves(k) => k < |p.checkouts| && p.checkouts[k].beginPending
    case Releases(j, _) => j < |p.checkouts|
  }

  function Next(p: Pool, e: Event): Pool
    requires Enabled(p, e) && HasClients(p)
  {
    match e
    case Opens(c) => Open(p, c)
    case Connects(c) => TakeOut(p, c)
    case Queries(j, text, isPromise) => HolderQuery(p, j, text, isPromise)
    case Rejects(k) => GiveBack(BeginSettles(p, k), k, true)
    case Resolves(k) => BeginSettles(p, k)
    case Releases(j, withError) => HolderRelease(p, j, withError)
  }

  // ----- the invariant -----

  predicate CheckoutOk(p: Pool, k: nat) {
    k < |p.checkouts| ==>
      var o := p.checkouts[k];
      && o.client in p.clients && o.originalQuery.Own?
      && |o.givenBack| == (if o.released then 1 else 0)
      && (p.clients[o.client].place == Out(k) <==> !o.released)
      && (o.givenBack == [true] ==> p.clients[o.client].place.Discarded?)
      && p.clients[o.client].release.Guard?
  }

  predicate ClientOk(p: Pool, c: ClientId) {
    c in p.clients ==>
      var client := p.clients[c];
      && client.query == (if client.place.Out? then Wrapper(client.place.checkout) else Own)
      && (client.release.Guard? ==>
            && client.release.checkout < |p.checkouts| && p.checkouts[client.release.checkout].client == c)
      && (client.place.Out? ==> client.release == Guard(client.place.checkout))
  }

  ghost predicate Inv(p: Pool) {
    (forall k: nat :: CheckoutOk(p, k)) && (forall c: ClientId :: ClientOk(p, c))
  }

  lemma InvHasClients(p: Pool)
    requires Inv(p)
    ensures HasClients(p)
  {
    forall k | 0 <= k < |p.checkouts| ensures p.checkouts[k].client in p.clients { assert CheckoutOk(p, k); }
  }

  lemma GiveBackKeeps(p: Pool, k: nat, withError: bool)
    requires Inv(p) && k < |p.checkouts| && p.checkouts[k].client in p.clients
    ensures Inv(GiveBack(p, k, withError))
  {
    var q := GiveBack(p, k, withError);
    assert CheckoutOk(p, k) && ClientOk(p, p.checkouts[k].client);
    if !p.checkouts[k].released { assert q.checkouts[k].givenBack == [withError]; }
    forall j: nat ensures CheckoutOk(q, j) { assert CheckoutOk(p, j); }
    forall c: ClientId ensures ClientOk(q, c) { assert ClientOk(p, c) && CheckoutOk(p, k); }
  }

  lemma NotesKeep(p: Pool, k: nat, o: Checkout)
    requires Inv(p) && k < |p.checkouts|
    requires o == p.checkouts[k].(firstQuery := o.firstQuery, beginPending := o.beginPending)
    ensures Inv(p.(checkouts := p.checkouts[k := o]))
  {
    var q := p.(checkouts := p.checkouts[k := o]);
    forall j: nat ensures CheckoutOk(q, j) { assert CheckoutOk(p, j); }
    forall c: ClientId ensures ClientOk(q, c) { assert ClientOk(p, c); }
  }

  lemma TakeOutKeeps(p: Pool, c: ClientId)
    requires Inv(p) && c in p.clients && p.clients[c].place.Idle?
    ensures Inv(TakeOut(p, c))
  {
    var q := TakeOut(p, c);
    assert ClientOk(p, c);
    forall j: nat ensures CheckoutOk(q, j) { assert CheckoutOk(p, j); }
    forall d: ClientId ensures ClientOk(q, d) { assert ClientOk(p, d); }
  }

  lemma OpenKeeps(p: Pool, c: ClientId)
    requires Inv(p) && c !in p.clients
    ensures Inv(Open(p, c))
  {
    var q := Open(p, c);
    forall j: nat ensures CheckoutOk(q, j) { assert CheckoutOk(p, j); }
    forall d: ClientId ensures ClientOk(q, d) { assert ClientOk(p, d); }
  }

  lemma StepKeepsInv(p: Pool, e: Event)
    requires Inv(p) && Enabled(p, e)
    ensures HasClients(p) && Inv(Next(p, e))
  {
    InvHasClients(p);
    match e
    case Opens(c) => OpenKeeps(p, c);
    case Connects(c) => TakeOutKeeps(p, c);
    case Queries(j, text, isPromise) =>
      assert ClientOk(p, p.checkouts[j].client);
      if ClientOf(p, j).query.Wrapper? {
        var k := ClientOf(p, j).query.checkout;
        if k < |p.checkouts| { NotesKeep(p, k, QueryThrough(p, k, text, isPromise).checkouts[k]); }
      }
    case Rejects(k) =>
      NotesKeep(p, k, p.checkouts[k].(beginPending := false));
      GiveBackKeeps(BeginSettles(p, k), k, true);
    case Resolves(k) => NotesKeep(p, k, p.checkouts[k].(beginPending := false));
    case Releases(j, withError) =>
      if ClientOf(p, j).release.Guard? && ClientOf(p, j).release.checkout < |p.checkouts| {
        GiveBackKeeps(p, ClientOf(p, j).release.checkout, withError);
      }
  }

  // ----- what one late use does -----

  /** The client handed out at checkout j is out again, under another checkout. */
  predicate HeldByAnother(p: Pool, j: nat)
    requires HasClients(p) && j < |p.checkouts|
  {
    ClientOf(p, j).place.Out? && ClientOf(p, j).place.checkout != j
  }

  predicate LeavesOthersAlone(p: Pool, q: Pool, j: nat) {
    forall k | 0 <= k < |p.checkouts| && k != j :: k < |q.checkouts| && q.checkouts[k] == p.checkouts[k]
  }

  /**
   A release by holder j leaves every other checkout alone exactly while its client
   is not out under another one; it ends the other checkout otherwise.
   */
  lemma LateReleaseIsExact(p: Pool, j: nat, withError: bool)
    requires Inv(p) && j < |p.checkouts|
    ensures HasClients(p)
    ensures LeavesOthersAlone(p, HolderRelease(p, j, withError), j) <==> !HeldByAnother(p, j)
    ensures HeldByAnother(p, j) ==>
              && ClientOf(p, j).place.checkout < |p.checkouts|
              && HolderRelease(p, j, withError) == GiveBack(p, ClientOf(p, j).place.checkout, withError)
    ensures p.checkouts[j].released && !HeldByAnother(p, j) ==> HolderRelease(p, j, withError) == p
  {
    InvHasClients(p);
    assert CheckoutOk(p, j) && ClientOk(p, p.checkouts[j].client);
    var k := ClientOf(p, j).release.checkout;
    assert CheckoutOk(p, k);
    if HeldByAnother(p, j) { assert HolderRelease(p, j, withError).checkouts[k] != p.checkouts[k]; }
  }

  /** A query by holder j leaves every other checkout alone exactly unless it uses up another one's first query. */
  lemma LateQueryIsExact(p: Pool, j: nat, text: Option<string>, isPromise: bool)
    requires Inv(p) && j < |p.checkouts|
    ensures HasClients(p)
    ensures LeavesOthersAlone(p, HolderQuery(p, j, text, isPromise), j) <==>
            !(HeldByAnother(p, j) && ClientOf(p, j).place.checkout < |p.checkouts|
              && p.checkouts[ClientOf(p, j).place.checkout].firstQuery)
  {
    InvHasClients(p);
    assert CheckoutOk(p, j) && ClientOk(p, p.checkouts[j].client);
    if ClientOf(p, j).place.Out? {
      var k := ClientOf(p, j).place.checkout;
      assert HolderQuery(p, j, text, isPromise) == QueryThrough(p, k, text, isPromise);
      if p.checkouts[k].firstQuery { assert QueryThrough(p, k, text, isPromise).checkouts[k] != p.checkouts[k]; }
    }
  }

  /** A client that went back with an error is never handed out again: its holders can do no harm. */
  lemma DiscardedIsInert(p: Pool, j: nat, withError: bool, text: Option<string>, isPromise: bool)
    requires Inv(p) && j < |p.checkouts| && p.checkouts[j].givenBack == [true]
    ensures HasClients(p)
    ensures HolderRelease(p, j, withError) == p && HolderQuery(p, j, text, isPromise) == p
  {
    InvHasClients(p);
    assert CheckoutOk(p, j) && ClientOk(p, p.checkouts[j].client);
    assert CheckoutOk(p, ClientOf(p, j).release.checkout);
  }

  /** Only a rejected `begin` that was the first statement gives the client back on its own, and then with an error. */
  lemma RejectedBeginReturnsWithError(p: Pool, j: nat, text: Option<string>, isPromise: bool)
    requires Inv(p) && j < |p.checkouts| && !p.checkouts[j].released && !p.checkouts[j].beginPending
    ensures HasClients(p)
    ensures var q := HolderQuery(p, j, text, isPromise);
      && (Enabled(q, Rejects(j)) <==> p.checkouts[j].firstQuery && IsBeginStatement(text) && isPromise)
      && (Enabled(q, Rejects(j)) ==> HasClients(q) && Next(q, Rejects(j)).checkouts[j].givenBack == [true])
  {
    InvHasClients(p);
    assert CheckoutOk(p, j) && ClientOk(p, p.checkouts[j].client);
  }

  // ----- runs -----

  ghost predicate Fresh(p: Pool) {
    p.checkouts == [] && forall c <- p.clients :: p.clients[c] == Client(Own, Unguarded, Idle)
  }

  ghost predicate Moves(p: Pool, e: Event, q: Pool) {
    Enabled(p, e) && HasClients(p) && q == Next(p, e)
  }

  /** The pools a run passes through, from one with no checkout. */
  ghost predicate Behaviour(pools: seq<Pool>, events: seq<Event>) {
    && |pools| == |events| + 1 && Fresh(pools[0])
    && forall i | 0 <= i < |events| :: Moves(pools[i], events[i], pools[i + 1])
  }

  lemma {:induction false} StateInv(pools: seq<Pool>, events: seq<Event>, n: nat)
    requires Behaviour(pools, events) && n < |pools|
    ensures Inv(pools[n]) && HasClients(pools[n])
  {
    if n > 0 {
      StateInv(pools, events, n - 1);
      assert Moves(pools[n - 1], events[n - 1], pools[n]);
      StepKeepsInv(pools[n - 1], events[n - 1]);
    }
    InvHasClients(pools[n]);
  }

  /** The begin of checkout k rejects, or its own holder releases it. */
  predicate Ends(e: Event, k: nat) {
    e == Rejects(k) || (e.Releases? && e.holder == k)
  }

  /** The event calls the release closure of checkout k, whoever makes it. */
  predicate Reaches(p: Pool, e: Event, k: nat)
    requires HasClients(p) && Enabled(p, e)
  {
    e == Rejects(k) || (e.Releases? && ClientOf(p, e.holder).release == Guard(k))
  }

  function WithError(e: Event): bool {
    e.Rejects? || (e.Releases? && e.withError)
  }

  lemma StepReleases(p: Pool, e: Event, k: nat)
    requires Inv(p) && HasClients(p) && Enabled(p, e) && k < |p.checkouts|
    ensures k < |Next(p, e).checkouts|
    ensures Next(p, e).checkouts[k].givenBack ==
            p.checkouts[k].givenBack + if Reaches(p, e, k) && !p.checkouts[k].released then [WithError(e)] else []
    ensures Next(p, e).checkouts[k].released == (p.checkouts[k].released || Reaches(p, e, k))
  {
  }

  lemma NewCheckout(p: Pool, e: Event, k: nat)
    requires HasClients(p) && Enabled(p, e) && |p.checkouts| <= k < |Next(p, e).checkouts|
    ensures k == |p.checkouts| && e.Connects? && Next(p, e).checkouts[k].givenBack == [] && !Next(p, e).checkouts[k].released
  {
  }

  ghost predicate ReachedBy(pools: seq<Pool>, events: seq<Event>, n: nat, k: nat)
    requires Behaviour(pools, events) && n <= |events|
  {
    exists i | 0 <= i < n :: ReachesAt(pools, events, i, k)
  }

  ghost predicate ReachesAt(pools: seq<Pool>, events: seq<Event>, i: nat, k: nat)
    requires Behaviour(pools, events) && i < |events|
  {
    Moves(pools[i], events[i], pools[i + 1]) && Reaches(pools[i], events[i], k)
  }

  predicate EndedBy(events: seq<Event>, n: nat, k: nat)
    requires n <= |events|
  {
    exists i | 0 <= i < n :: Ends(events[i], k)
  }

  lemma ReachesKnown(p: Pool, e: Event, k: nat)
    requires Inv(p) && HasClients(p) && Enabled(p, e) && Reaches(p, e, k)
    ensures k < |p.checkouts|
  {
    if e.Releases? { assert ClientOk(p, p.checkouts[e.holder].client); }
  }

  /** Nothing reaches or ends a checkout before it was made. */
  lemma {:induction false} NotBefore(pools: seq<Pool>, events: seq<Event>, n: nat, k: nat)
    requires Behaviour(pools, events) && n <= |events| && |pools[n].checkouts| <= k
    ensures !ReachedBy(pools, events, n, k) && !EndedBy(events, n, k)
  {
    if n > 0 {
      var p, e := pools[n - 1], events[n - 1];
      assert Moves(p, e, pools[n]);
      StateInv(pools, events, n - 1);
      NotBefore(pools, events, n - 1, k);
      if Reaches(p, e, k) { ReachesKnown(p, e, k); }
    }
  }

  /**
   The pool's release runs at most once for a checkout: at the first event that
   reaches its guard, however often and late the holders of the client release it.
   */
  lemma {:induction false} GivenBackOnce(pools: seq<Pool>, events: seq<Event>, n: nat, k: nat)
    requires Behaviour(pools, events) && n <= |events| && k < |pools[n].checkouts|
    ensures |pools[n].checkouts[k].givenBack| == if ReachedBy(pools, events, n, k) then 1 else 0
    ensures pools[n].checkouts[k].released <==> ReachedBy(pools, events, n, k)
  {
    StateInv(pools, events, n);
    assert CheckoutOk(pools[n], k);
    if n > 0 {
      var p, e := pools[n - 1], events[n - 1];
      assert Moves(p, e, pools[n]);
      StateInv(pools, events, n - 1);
      assert ReachedBy(pools, events, n, k) <==> ReachedBy(pools, events, n - 1, k) || ReachesAt(pools, events, n - 1, k);
      if k < |p.checkouts| {
        GivenBackOnce(pools, events, n - 1, k);
        StepReleases(p, e, k);
      } else {
        NewCheckout(p, e, k);
        NotBefore(pools, events, n - 1, k);
      }
    }
  }

  /** The holder of a checkout still open reaches its own guard. */
  lemma OwnReleaseReaches(p: Pool, e: Event, k: nat)
    requires Inv(p) && HasClients(p) && Enabled(p, e) && Ends(e, k) && !p.checkouts[k].released
    ensures Reaches(p, e, k)
  {
    assert CheckoutOk(p, k) && ClientOk(p, p.checkouts[k].client);
  }

  /** A rejected begin or a release by its own holder gives the client back, exactly once. */
  lemma {:induction false} EndedIsGivenBack(pools: seq<Pool>, events: seq<Event>, n: nat, k: nat)
    requires Behaviour(pools, events) && n <= |events| && k < |pools[n].checkouts| && EndedBy(events, n, k)
    ensures |pools[n].checkouts[k].givenBack| == 1 && pools[n].checkouts[k].released
  {
    var p, e := pools[n - 1], events[n - 1];
    assert Moves(p, e, pools[n]);
    StateInv(pools, events, n - 1);
    StateInv(pools, events, n);
    assert CheckoutOk(pools[n], k);
    if k < |p.checkouts| {
      StepReleases(p, e, k);
      if Ends(e, k) {
        if !p.checkouts[k].released { OwnReleaseReaches(p, e, k); }
      } else {
        EndedIsGivenBack(pools, events, n - 1, k);
      }
    } else {
      NewCheckout(p, e, k);
      NotBefore(pools, events, n - 1, k);
    }
  }

  /** A holder releases its client while it is out under another checkout. */
  ghost predicate StaleAt(pools: seq<Pool>, events: seq<Event>, i: nat)
    requires Behaviour(pools, events) && i < |events|
  {
    && Moves(pools[i], events[i], pools[i + 1])
    && events[i].Releases? && HeldByAnother(pools[i], events[i].holder)
  }

  /** At this point of the run a checkout was given back if and only if its begin rejected or its own holder released it. */
  ghost predicate FairAt(pools: seq<Pool>, events: seq<Event>, n: nat)
    requires Behaviour(pools, events) && n <= |events|
  {
    forall k | 0 <= k < |pools[n].checkouts| :: pools[n].checkouts[k].released <==> EndedBy(events, n, k)
  }

  lemma {:induction false} NoStaleIsFair(pools: seq<Pool>, events: seq<Event>, n: nat)
    requires Behaviour(pools, events) && n <= |events|
    requires forall i | 0 <= i < n :: !StaleAt(pools, events, i)
    ensures FairAt(pools, events, n)
  {
    if n > 0 {
      var p, e := pools[n - 1], events[n - 1];
      assert Moves(p, e, pools[n]) && !StaleAt(pools, events, n - 1);
      StateInv(pools, events, n - 1);
      NoStaleIsFair(pools, events, n - 1);
      forall k | 0 <= k < |pools[n].checkouts| ensures pools[n].checkouts[k].released <==> EndedBy(events, n, k) {
        if EndedBy(events, n, k) { EndedIsGivenBack(pools, events, n, k); }
        if k < |p.checkouts| {
          StepReleases(p, e, k);
          FairReach(p, e, k);
        } else {
          NewCheckout(p, e, k);
        }
      }
    }
  }

  /** An event that is not stale reaches an open checkout only as its own end. */
  lemma FairReach(p: Pool, e: Event, k: nat)
    requires Inv(p) && HasClients(p) && Enabled(p, e) && k < |p.checkouts|
    requires e.Releases? ==> !HeldByAnother(p, e.holder)
    ensures Reaches(p, e, k) && !p.checkouts[k].released ==> Ends(e, k)
  {
    assert CheckoutOk(p, k);
    if e.Releases? { assert ClientOk(p, p.checkouts[e.holder].client); }
  }

  /** A stale release ends a checkout whose begin did not reject and whose holder did not release it. */
  lemma StaleIsUnfair(pools: seq<Pool>, events: seq<Event>, i: nat)
    requires Behaviour(pools, events) && i < |events| && StaleAt(pools, events, i)
    ensures !FairAt(pools, events, i) || !FairAt(pools, events, i + 1)
  {
    var p, e := pools[i], events[i];
    StateInv(pools, events, i);
    assert CheckoutOk(p, e.holder) && ClientOk(p, p.checkouts[e.holder].client);
    var k := ClientOf(p, e.holder).place.checkout;
    assert CheckoutOk(p, k);
    StepReleases(p, e, k);
    assert EndedBy(events, i + 1, k) ==> EndedBy(events, i, k);
  }

  /**
   Throughout a run checkouts are given back exactly when their begin rejects or
   their own holder releases them, if and only if no holder ever releases a client
   that is out under another checkout.
   */
  lemma FairExactly(pools: seq<Pool>, events: seq<Event>)
    requires Behaviour(pools, events)
    ensures (forall n | 0 <= n <= |events| :: FairAt(pools, events, n)) <==>
            (forall i | 0 <= i < |events| :: !StaleAt(pools, events, i))
  {
    if forall i | 0 <= i < |events| :: !StaleAt(pools, events, i) {
      forall n | 0 <= n <= |events| ensures FairAt(pools, events, n) { NoStaleIsFair(pools, events, n); }
    }
    if i :| 0 <= i < |events| && StaleAt(pools, events, i) { StaleIsUnfair(pools, events, i); }
  }

  /** It does happen: a second release after the client was handed out again ends the second checkout. */
  lemma LateReleaseEndsAnother() returns (pools: seq<Pool>, events: seq<Event>)
    ensures Behaviour(pools, events)
    ensures |pools[|events|].checkouts| == 2 && pools[|events|].checkouts[1].released
    ensures !EndedBy(events, |events|, 1)
  {
    var empty := Pool(map[], []);
    var open := Next(empty, Opens(0));
    var first := Next(open, Connects(0));
    var back := Next(first, Releases(0, false));
    var second := Next(back, Connects(0));
    pools := [empty, open, first, back, second, Next(second, Releases(0, false))];
    events := [Opens(0), Connects(0), Releases(0, false), Connects(0), Releases(0, false)];
  }

  /** The first event that reaches the guard decides whether the client goes back with an error. */
  lemma {:induction false} GivenBackAsFirstReached(pools: seq<Pool>, events: seq<Event>, i: nat, n: nat, k: nat)
    requires Behaviour(pools, events) && i < n <= |events| && k < |pools[i].checkouts|
    requires ReachesAt(pools, events, i, k) && !ReachedBy(pools, events, i, k)
    ensures k < |pools[n].checkouts| && pools[n].checkouts[k].givenBack == [WithError(events[i])]
  {
    var p, e := pools[n - 1], events[n - 1];
    assert Moves(p, e, pools[n]);
    StateInv(pools, events, n - 1);
    if n == i + 1 {
      GivenBackOnce(pools, events, i, k);
      assert CheckoutOk(p, k);
    } else {
      GivenBackAsFirstReached(pools, events, i, n - 1, k);
      GivenBackOnce(pools, events, n - 1, k);
      assert ReachesAt(pools, events, i, k);
    }
    StepReleases(p, e, k);
  }

  /** After a rejected begin gave the client back, no later use of it by any of its holders changes anything. */
  lemma LateUseAfterRejectionIsHarmless(pools: seq<Pool>, events: seq<Event>, i: nat, n: nat, k: nat, j: nat,
                                        withError: bool, text: Option<string>, isPromise: bool)
    requires Behaviour(pools, events) && i < n <= |events| && k < |pools[i].checkouts|
    requires events[i] == Rejects(k) && !pools[i].checkouts[k].released
    requires k < |pools[n].checkouts| && j < |pools[n].checkouts| && pools[n].checkouts[j].client == pools[n].checkouts[k].client
    ensures HasClients(pools[n])
    ensures HolderRelease(pools[n], j, withError) == pools[n] && HolderQuery(pools[n], j, text, isPromise) == pools[n]
  {
    StateInv(pools, events, n);
    assert Moves(pools[i], events[i], pools[i + 1]);
    GivenBackOnce(pools, events, i, k);
    GivenBackAsFirstReached(pools, events, i, n, k);
    DiscardedIsInert(pools[n], k, withError, text, isPromise);
  }

  // ----- which rejections are caught -----

  /** The event queries through the wrapper of checkout k, whichever holder makes it. */
  predicate QueriesThrough(p: Pool, e: Event, k: nat)
    requires HasClients(p) && Enabled(p, e)
  {
    e.Queries? && ClientOf(p, e.holder).query == Wrapper(k)
  }

  ghost predicate QueriedAt(pools: seq<Pool>, events: seq<Event>, i: nat, k: nat)
    requires Behaviour(pools, events) && i < |events|
  {
    Moves(pools[i], events[i], pools[i + 1]) && QueriesThrough(pools[i], events[i], k)
  }

  ghost predicate QueriedBy(pools: seq<Pool>, events: seq<Event>, n: nat, k: nat)
    requires Behaviour(pools, events) && n <= |events|
  {
    exists i | 0 <= i < n :: QueriedAt(pools, events, i, k)
  }

  /** At step i the first query of checkout k was a begin that answers with a promise, unsettled before step n. */
  ghost predicate BeginAt(pools: seq<Pool>, events: seq<Event>, i: nat, n: nat, k: nat)
    requires Behaviour(pools, events) && i < n <= |events|
  {
    && QueriedAt(pools, events, i, k) && !QueriedBy(pools, events, i, k)
    && IsBeginStatement(events[i].text) && events[i].isPromise
    && forall m | i < m < n :: events[m] != Rejects(k) && events[m] != Resolves(k)
  }

  ghost predicate BeginPending(pools: seq<Pool>, events: seq<Event>, n: nat, k: nat)
    requires Behaviour(pools, events) && n <= |events|
  {
    exists i | 0 <= i < n :: BeginAt(pools, events, i, n, k)
  }

  lemma StepQueries(p: Pool, e: Event, k: nat)
    requires Inv(p) && HasClients(p) && Enabled(p, e) && k < |p.checkouts|
    ensures k < |Next(p, e).checkouts|
    ensures var o, o' := p.checkouts[k], Next(p, e).checkouts[k]; var queried := QueriesThrough(p, e, k);
      && (o'.firstQuery <==> o.firstQuery && !queried)
      && (o'.beginPending <==>
            || (o.beginPending && e != Rejects(k) && e != Resolves(k))
            || (queried && o.firstQuery && IsBeginStatement(e.text) && e.isPromise))
  {
  }

  lemma FirstStep(p: Pool, e: Event, k: nat)
    requires HasClients(p) && Enabled(p, e) && |p.checkouts| <= k < |Next(p, e).checkouts|
    ensures Next(p, e).checkouts[k].firstQuery && !Next(p, e).checkouts[k].beginPending
  {
  }

  lemma QueriesKnown(p: Pool, e: Event, k: nat)
    requires Inv(p) && HasClients(p) && Enabled(p, e) && QueriesThrough(p, e, k)
    ensures k < |p.checkouts|
  {
    assert ClientOk(p, p.checkouts[e.holder].client);
  }

  lemma {:induction false} NotQueriedBefore(pools: seq<Pool>, events: seq<Event>, n: nat, k: nat)
    requires Behaviour(pools, events) && n <= |events| && |pools[n].checkouts| <= k
    ensures !QueriedBy(pools, events, n, k)
  {
    if n > 0 {
      var p, e := pools[n - 1], events[n - 1];
      assert Moves(p, e, pools[n]);
      StateInv(pools, events, n - 1);
      NotQueriedBefore(pools, events, n - 1, k);
      if QueriesThrough(p, e, k) { QueriesKnown(p, e, k); }
    }
  }

  /** A checkout waits for its first query until its wrapper is first called. */
  lemma {:induction false} FirstQueryExactly(pools: seq<Pool>, events: seq<Event>, n: nat, k: nat)
    requires Behaviour(pools, events) && n <= |events| && k < |pools[n].checkouts|
    ensures pools[n].checkouts[k].firstQuery <==> !QueriedBy(pools, events, n, k)
  {
    if n > 0 {
      var p, e := pools[n - 1], events[n - 1];
      assert Moves(p, e, pools[n]);
      StateInv(pools, events, n - 1);
      assert QueriedBy(pools, events, n, k) <==> QueriedBy(pools, events, n - 1, k) || QueriedAt(pools, events, n - 1, k);
      if k < |p.checkouts| {
        FirstQueryExactly(pools, events, n - 1, k);
        StepQueries(p, e, k);
      } else {
        FirstStep(p, e, k);
        NotQueriedBefore(pools, events, n - 1, k);
        if QueriesThrough(p, e, k) { QueriesKnown(p, e, k); }
      }
    }
  }

  /** A rejection is caught exactly while the first query of the checkout is an unsettled begin. */
  lemma {:induction false} CaughtExactly(pools: seq<Pool>, events: seq<Event>, n: nat, k: nat)
    requires Behaviour(pools, events) && n <= |events| && k < |pools[n].checkouts|
    ensures Enabled(pools[n], Rejects(k)) <==> BeginPending(pools, events, n, k)
  {
    if n > 0 {
      var p, e := pools[n - 1], events[n - 1];
      assert Moves(p, e, pools[n]);
      StateInv(pools, events, n - 1);
      PendingUnfolds(pools, events, n, k);
      if k < |p.checkouts| {
        CaughtExactly(pools, events, n - 1, k);
        FirstQueryExactly(pools, events, n - 1, k);
        StepQueries(p, e, k);
      } else {
        FirstStep(p, e, k);
        NotQueriedBefore(pools, events, n - 1, k);
        if QueriesThrough(p, e, k) { QueriesKnown(p, e, k); }
      }
    }
  }

  lemma PendingUnfolds(pools: seq<Pool>, events: seq<Event>, n: nat, k: nat)
    requires Behaviour(pools, events) && 0 < n <= |events|
    ensures BeginPending(pools, events, n, k) <==>
            || (BeginPending(pools, events, n - 1, k) && events[n - 1] != Rejects(k) && events[n - 1] != Resolves(k))
            || BeginAt(pools, events, n - 1, n, k)
    ensures BeginPending(pools, events, n - 1, k) ==> QueriedBy(pools, events, n - 1, k)
  {
    if i :| 0 <= i < n && BeginAt(pools, events, i, n, k) {
      if i < n - 1 { assert BeginAt(pools, events, i, n - 1, k); }
    }
    var m := n - 1;
    if i :| 0 <= i < m && BeginAt(pools, events, i, m, k) {
      if events[m] != Rejects(k) && events[m] != Resolves(k) { assert BeginAt(pools, events, i, n, k); }
    }
  }

  /** A client that is not out has its own query function; a client out has its checkout's wrapper and guard. */
  lemma ClientsComeBackUnwrapped(pools: seq<Pool>, events: seq<Event>, n: nat, c: ClientId)
    requires Behaviour(pools, events) && n < |pools| && c in pools[n].clients
    ensures var client := pools[n].clients[c];
      if client.place.Out? then
        client.query == Wrapper(client.place.checkout) && client.release == Guard(client.place.checkout)
      else client.query == Own
  {
    StateInv(pools, events, n);
    assert ClientOk(pools[n], c);
  }

  /** No client is lost: it is out exactly until the guard of its checkout is reached. */
  lemma OutUntilReached(pools: seq<Pool>, events: seq<Event>, n: nat, k: nat)
    requires Behaviour(pools, events) && n <= |events| && k < |pools[n].checkouts|
    ensures pools[n].checkouts[k].client in pools[n].clients
    ensures pools[n].clients[pools[n].checkouts[k].client].place == Out(k) <==> !ReachedBy(pools, events, n, k)
  {
    StateInv(pools, events, n);
    GivenBackOnce(pools, events, n, k);
    assert CheckoutOk(pools[n], k);
  }
}

/** The guard on mutable clients: a checkout keeps its flags, and overwrites the functions of the shared client. */
module GuardedPool {
  import opened PoolCheckout

  class GuardedPool {
    var clients: map<ClientId, Client>
    var checkouts: seq<Checkout>

    function View(): Pool
      reads this
    {
      Pool(clients, checkouts)
    }

    constructor ()
      ensures Fresh(View()) && clients == map[]
    {
      clients, checkouts := map[], [];
    }

    method GuardCheckout(c: ClientId) returns (k: nat)
      requires c in clients
      modifies this
      ensures k == old(|checkouts|) && View() == TakeOut(old(View()), c)
    {
      k := |checkouts|;
      var originalQuery := clients[c].query;
      checkouts := checkouts + [Checkout(c, originalQuery, false, true, false, [])];
      clients := clients[c := clients[c].(release := Guard(k), place := Out(k))];
      clients := clients[c := clients[c].(query := Wrapper(k))];
    }

    /** The release closure of checkout k. */
    method ReleaseClosure(k: nat, withError: bool)
      requires k < |checkouts| && checkouts[k].client in clients
      modifies this
      ensures View() == GiveBack(old(View()), k, withError)
    {
      var o := checkouts[k];
      if o.released { return; }
      checkouts := checkouts[k := o.(released := true, givenBack := o.givenBack + [withError])];
      clients := clients[o.client := clients[o.client].(query := o.originalQuery)];
      clients := clients[o.client := clients[o.client].(place := if withError then Discarded else Idle)];
    }

    /** The query wrapper of checkout k. */
    method QueryClosure(k: nat, text: Option<string>, isPromise: bool)
      requires k < |checkouts|
      modifies this`checkouts
      ensures View() == QueryThrough(old(View()), k, text, isPromise)
    {
      var isBegin := checkouts[k].firstQuery && IsBeginStatement(text);
      checkouts := checkouts[k := checkouts[k].(firstQuery := false)];
      if isBegin && isPromise { checkouts := checkouts[k := checkouts[k].(beginPending := true)]; }
    }

    /** A holder calls the release function its client has by now. */
    method ReleaseByHolder(j: nat, withError: bool)
      requires HasClients(View()) && j < |checkouts|
      modifies this
      ensures View() == HolderRelease(old(View()), j, withError)
    {
      var release := clients[checkouts[j].client].release;
      if release.Guard? && release.checkout < |checkouts| { ReleaseClosure(release.checkout, withError); }
    }

    /** A holder calls the query function its client has by now. */
    method QueryByHolder(j: nat, text: Option<string>, isPromise: bool)
      requires HasClients(View()) && j < |checkouts|
      modifies this`checkouts
      ensures View() == HolderQuery(old(View()), j, text, isPromise)
    {
      var query := clients[checkouts[j].client].query;
      if query.Wrapper? && query.checkout < |checkouts| { QueryClosure(query.checkout, text, isPromise); }
    }

    method OnBeginRejected(k: nat)
      requires k < |checkouts| && checkouts[k].client in clients
      modifies this
      ensures View() == GiveBack(BeginSettles(old(View()), k), k, true)
    {
      checkouts := checkouts[k := checkouts[k].(beginPending := false)];
      ReleaseClosure(k, true);
    }
  }
}
