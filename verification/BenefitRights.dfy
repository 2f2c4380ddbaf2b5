/**
 The rights tickets have to benefits, and the transactions that change them:
 revoking on a cancellation request, restoring when it is rejected, issuing the
 configured rights, and repairing missing ones. Rows are never deleted; a row's
 position in the table is its identity.
 */
module BenefitRights {

  type Id = nat

  datatype Option<+T> = None | Some(value: T)

  datatype Kind = Included | Limited
  datatype Source = Configuration | LiveRun | TestRun | Rollback
  datatype RightState = Active | Inactive | Redeemed
  datatype ItemStatus = ItemActive | ItemCancellationPending | ItemCancelled | ItemExpired
  datatype RunMode = Live | Test
  datatype RunStatus = Running | Completed | Failed

  datatype Right = Right(
    showtime: Id, item: Id, identity: string, kind: Kind, copy: string, source: Source,
    run: Option<Id>, state: RightState, reason: Option<string>, repair: Option<Id>)

  /** confirmed, paid: the reservation is CONFIRMED and the payment DONE. */
  datatype Item = Item(id: Id, showtime: Id, tier: string, status: ItemStatus, confirmed: bool, paid: bool)

  datatype Config = Config(id: Id, showtime: Id, version: int)

  datatype Benefit = Benefit(config: Id, identity: string, kind: Kind, tiers: seq<string>, copy: string)

  datatype LiveRunRow = LiveRunRow(id: Id, showtime: Id, mode: RunMode, status: RunStatus, createdAt: int)

  datatype Db = Db(showtimes: set<Id>, items: seq<Item>, configs: seq<Config>, benefits: seq<Benefit>, runs: seq<LiveRunRow>)

  datatype Error = UniqueViolation | ShowtimeNotFound | CandidatesChanged

  datatype Result<T> = Ok(value: T) | Err(error: Error)

  const CANCELLATION_PENDING := "cancellation_pending"
  const REPLACED_BY_LIVE_RUN := "replaced_by_live_run"
  const CONFIGURATION_CHANGED := "configuration_changed"

  // ----- the unique indexes -----

  predicate IsLiveIncluded(r: Right) {
    r.source.Configuration? && r.kind.Included? && (r.state.Active? || r.state.Redeemed?)
  }

  predicate IsLiveLimited(r: Right) {
    r.kind.Limited? && r.state.Active?
  }

  /** Two rows that one of the partial unique indexes does not allow together. */
  predicate Collide(a: Right, b: Right) {
    || (IsLiveIncluded(a) && IsLiveIncluded(b) && a.item == b.item && a.identity == b.identity)
    || (IsLiveLimited(a) && IsLiveLimited(b) && a.item == b.item)
  }

  /** A live configured right of this item to this benefit is in the table. */
  predicate HasLive(rights: seq<Right>, item: Id, identity: string) {
    exists i | 0 <= i < |rights| :: IsLiveIncluded(rights[i]) && rights[i].item == item && rights[i].identity == identity
  }

  predicate CollidesWithAny(r: Right, rights: seq<Right>) {
    exists i | 0 <= i < |rights| :: Collide(r, rights[i])
  }

  predicate Indexed(rights: seq<Right>) {
    forall i, j | 0 <= i < j < |rights| :: !Collide(rights[i], rights[j])
  }

  // ----- the current configuration and the latest live run -----

  function LatestConfig(configs: seq<Config>, s: Id): (best: Option<Config>)
    ensures best.Some? ==> best.value in configs && best.value.showtime == s
    ensures forall c <- configs :: c.showtime == s ==> best.Some? && c.version <= best.value.version
  {
    if configs == [] then None
    else
      var rest := LatestConfig(configs[1..], s);
      if configs[0].showtime == s && (rest.None? || configs[0].version >= rest.value.version) then Some(configs[0]) else rest
  }

  /** Later in creation time, or in id when created at the same time. */
  predicate RunBefore(a: LiveRunRow, b: LiveRunRow) {
    a.createdAt < b.createdAt || (a.createdAt == b.createdAt && a.id <= b.id)
  }

  predicate IsLiveRunOf(r: LiveRunRow, s: Id) {
    r.showtime == s && r.mode.Live? && r.status.Completed?
  }

  function LatestLiveRun(runs: seq<LiveRunRow>, s: Id): (best: Option<LiveRunRow>)
    ensures best.Some? ==> best.value in runs && IsLiveRunOf(best.value, s)
    ensures forall r <- runs :: IsLiveRunOf(r, s) ==> best.Some? && RunBefore(r, best.value)
  {
    if runs == [] then None
    else
      var rest := LatestLiveRun(runs[1..], s);
      if IsLiveRunOf(runs[0], s) && (rest.None? || RunBefore(rest.value, runs[0])) then Some(runs[0]) else rest
  }

  function IncludedOf(benefits: seq<Benefit>, config: Id): (r: seq<Benefit>)
    ensures forall b :: b in r <==> b in benefits && b.config == config && b.kind.Included?
  {
    if benefits == [] then []
    else
      (if benefits[0].config == config && benefits[0].kind.Included? then [benefits[0]] else [])
      + IncludedOf(benefits[1..], config)
  }

  /** The included benefits of the showtime's newest configuration. */
  function CurrentIncluded(db: Db, s: Id): seq<Benefit> {
    var config := LatestConfig(db.configs, s);
    if config.None? then [] else IncludedOf(db.benefits, config.value.id)
  }

  /** The benefit of this identity; the last row wins. */
  function FindBenefit(benefits: seq<Benefit>, identity: string): (b: Option<Benefit>)
    ensures b.Some? ==> b.value in benefits && b.value.identity == identity
    ensures b.None? ==> forall x <- benefits :: x.identity != identity
  {
    if benefits == [] then None
    else
      var last := benefits[|benefits| - 1];
      if last.identity == identity then Some(last) else FindBenefit(benefits[..|benefits| - 1], identity)
  }

  /** The right's benefit is in the current configuration of the showtime for this tier. */
  predicate StillIncluded(db: Db, s: Id, identity: string, tier: string) {
    var b := FindBenefit(CurrentIncluded(db, s), identity);
    b.Some? && tier in b.value.tiers
  }

  // ----- restoring -----

  predicate PendingRow(r: Right) {
    r.state.Inactive? && r.reason == Some(CANCELLATION_PENDING)
  }

  predicate IsPending(r: Right, items: seq<Item>) {
    FindItem(items, r.item).Some? && PendingRow(r)
  }

  function FindItem(items: seq<Item>, id: Id): (x: Option<Item>)
    ensures x.Some? ==> x.value in items && x.value.id == id
    ensures x.None? ==> forall y <- items :: y.id != id
  {
    if items == [] then None
    else if items[|items| - 1].id == id then Some(items[|items| - 1])
    else FindItem(items[..|items| - 1], id)
  }

  /** What becomes of one pending right of a restored item. */
  function Decide(db: Db, s: Id, items: seq<Item>, r: Right): Right {
    if r.kind.Limited? then
      var run := LatestLiveRun(db.runs, s);
      if run.Some? && r.run == Some(run.value.id) then r.(state := Active, reason := None)
      else r.(reason := Some(REPLACED_BY_LIVE_RUN))
    else
      var benefit := FindBenefit(CurrentIncluded(db, s), r.identity);
      var x := FindItem(items, r.item);
      if r.source.Configuration? && benefit.Some? && x.Some? && x.value.tier in benefit.value.tiers then
        r.(state := Active, reason := None, copy := benefit.value.copy)
      else r.(reason := Some(CONFIGURATION_CHANGED))
  }

  function Reactivated(db: Db, s: Id, items: seq<Item>, rights: seq<Right>): (t: seq<Right>)
    ensures |t| == |rights|
    ensures forall i | 0 <= i < |t| ::
      t[i] == if IsPending(rights[i], items) then Decide(db, s, items, rights[i]) else rights[i]
  {
    seq(|rights|, i requires 0 <= i < |rights| =>
      if IsPending(rights[i], items) then Decide(db, s, items, rights[i]) else rights[i])
  }

  // ----- issuing configured rights -----

  function NewRight(s: Id, item: Id, b: Benefit, repair: Option<Id>): Right {
    Right(s, item, b.identity, Included, b.copy, Configuration, None, Active, None, repair)
  }

  /** ON CONFLICT DO NOTHING. */
  function InsertIfFree(rights: seq<Right>, r: Right): seq<Right> {
    if CollidesWithAny(r, rights) then rights else rights + [r]
  }

  /** One benefit for all items of its tiers. */
  function IssueBenefit(rights: seq<Right>, s: Id, items: seq<Item>, b: Benefit): seq<Right> {
    if items == [] then rights
    else
      var t := IssueBenefit(rights, s, items[..|items| - 1], b);
      var x := items[|items| - 1];
      if x.tier in b.tiers then InsertIfFree(t, NewRight(s, x.id, b, None)) else t
  }

  function IssueAll(rights: seq<Right>, s: Id, items: seq<Item>, benefits: seq<Benefit>): seq<Right> {
    if benefits == [] then rights
    else IssueBenefit(IssueAll(rights, s, items, benefits[..|benefits| - 1]), s, items, benefits[|benefits| - 1])
  }

  function Sync(db: Db, s: Id, items: seq<Item>, rights: seq<Right>): Result<seq<Right>> {
    if items == [] then Ok(rights)
    else if s !in db.showtimes then Err(ShowtimeNotFound)
    else Ok(IssueAll(rights, s, items, CurrentIncluded(db, s)))
  }

  function RestoreShowtime(db: Db, s: Id, items: seq<Item>, rights: seq<Right>): Result<seq<Right>> {
    var t := Reactivated(db, s, items, rights);
    if Indexed(t) then Sync(db, s, items, t) else Err(UniqueViolation)
  }

  function ItemsIn(items: seq<Item>, ids: seq<Id>): (r: seq<Item>)
    ensures forall x :: x in r <==> x in items && x.id in ids && x.status.ItemActive?
  {
    if items == [] then []
    else
      ItemsIn(items[..|items| - 1], ids)
      + (var x := items[|items| - 1]; if x.id in ids && x.status.ItemActive? then [x] else [])
  }

  function ItemsOf(items: seq<Item>, s: Id): (r: seq<Item>)
    ensures forall x :: x in r <==> x in items && x.showtime == s
  {
    if items == [] then []
    else ItemsOf(items[..|items| - 1], s) + (var x := items[|items| - 1]; if x.showtime == s then [x] else [])
  }

  function RestoreEach(db: Db, showtimes: seq<Id>, items: seq<Item>, rights: seq<Right>): Result<seq<Right>> {
    if showtimes == [] then Ok(rights)
    else
      match RestoreEach(db, showtimes[..|showtimes| - 1], items, rights)
      case Err(e) => Err(e)
      case Ok(t) =>
        var s := showtimes[|showtimes| - 1];
        RestoreShowtime(db, s, ItemsOf(items, s), t)
  }

  ghost function Least(s: set<Id>): (m: Id)
    requires s != {}
    ensures m in s
    ensures forall x <- s :: m <= x
    decreases |s|
  {
    var a :| a in s;
    var rest := s - {a};
    assert forall x <- s :: x == a || x in rest;
    if rest == {} then a
    else
      var m := Least(rest);
      if a < m then a else m
  }

  /** The showtimes in the order their rows are locked. */
  ghost function Sorted(s: set<Id>): (r: seq<Id>)
    ensures forall x :: x in r <==> x in s
    decreases |s|
  {
    if s == {} then []
    else
      var m := Least(s);
      var rest := Sorted(s - {m});
      assert forall x :: x in [m] + rest <==> x == m || x in rest;
      [m] + rest
  }

  lemma {:induction false} LocksAscend(s: set<Id>, i: nat, j: nat)
    requires i < j < |Sorted(s)|
    ensures Sorted(s)[i] < Sorted(s)[j]
    decreases |s|
  {
    var m := Least(s);
    var rest := Sorted(s - {m});
    assert Sorted(s) == [m] + rest;
    assert rest[j - 1] in rest;
    if i > 0 { LocksAscend(s - {m}, i - 1, j - 1); }
  }

  function ShowtimesOf(items: seq<Item>): set<Id> {
    set x <- items :: x.showtime
  }

  /** Restores the rights of the items of ids that are active again. */
  ghost function Restore(db: Db, ids: seq<Id>, rights: seq<Right>): Result<seq<Right>> {
    var items := ItemsIn(db.items, ids);
    RestoreEach(db, Sorted(ShowtimesOf(items)), items, rights)
  }

  // ----- revoking, on a cancellation request -----

  function RevokeRow(ids: set<Id>, r: Right): Right {
    if r.item in ids && r.state.Active? then r.(state := Inactive, reason := Some(CANCELLATION_PENDING)) else r
  }

  function Revoke(rights: seq<Right>, ids: set<Id>): (t: seq<Right>)
    ensures |t| == |rights|
    ensures forall i | 0 <= i < |t| :: t[i] == RevokeRow(ids, rights[i])
  {
    seq(|rights|, i requires 0 <= i < |rights| => RevokeRow(ids, rights[i]))
  }

  // ----- repairing -----

  /** The item should have a live right to this benefit and has none. */
  predicate Missing(rights: seq<Right>, s: Id, x: Item, b: Benefit) {
    && x.showtime == s && x.status.ItemActive? && x.confirmed && x.paid && x.tier in b.tiers
    && !HasLive(rights, x.id, b.identity)
  }

  datatype Candidate = Candidate(item: Item, benefit: Benefit)

  function CandidatesOfItem(rights: seq<Right>, s: Id, x: Item, benefits: seq<Benefit>): (r: seq<Candidate>)
    ensures forall c :: c in r <==> c.item == x && c.benefit in benefits && Missing(rights, s, x, c.benefit)
  {
    if benefits == [] then []
    else
      CandidatesOfItem(rights, s, x, benefits[..|benefits| - 1])
      + (var b := benefits[|benefits| - 1]; if Missing(rights, s, x, b) then [Candidate(x, b)] else [])
  }

  function CandidatesOf(rights: seq<Right>, s: Id, items: seq<Item>, benefits: seq<Benefit>): (r: seq<Candidate>)
    ensures forall c :: c in r <==> c.item in items && c.benefit in benefits && Missing(rights, s, c.item, c.benefit)
  {
    if items == [] then []
    else
      CandidatesOf(rights, s, items[..|items| - 1], benefits)
      + CandidatesOfItem(rights, s, items[|items| - 1], benefits)
  }

  /** What a repair run of this showtime finds. */
  function Candidates(db: Db, rights: seq<Right>, s: Id): seq<Candidate> {
    CandidatesOf(rights, s, db.items, CurrentIncluded(db, s))
  }

  function RepairRows(s: Id, candidates: seq<Candidate>, audit: Id): (r: seq<Right>)
    ensures |r| == |candidates|
    ensures forall i | 0 <= i < |r| :: r[i] == NewRight(s, candidates[i].item.id, candidates[i].benefit, Some(audit))
  {
    seq(|candidates|, i requires 0 <= i < |candidates| =>
      NewRight(s, candidates[i].item.id, candidates[i].benefit, Some(audit)))
  }

  datatype Report = Report(missingTickets: nat, missingEntitlements: nat, applied: nat, audit: Option<Id>)

  /** The tickets of the candidates, each once. */
  function TicketIds(candidates: seq<Candidate>): (ids: seq<Id>)
    ensures forall i, j | 0 <= i < j < |ids| :: ids[i] != ids[j]
    ensures forall id :: id in ids <==> exists c <- candidates :: c.item.id == id
  {
    if candidates == [] then []
    else
      var ids := TicketIds(candidates[..|candidates| - 1]);
      var id := candidates[|candidates| - 1].item.id;
      if id in ids then ids else ids + [id]
  }

  /** The tickets among ids that are still sold and active; the query locks their rows. */
  function Lockable(items: seq<Item>, s: Id, ids: seq<Id>): set<Id> {
    set x <- items | x.id in ids && x.showtime == s && x.status.ItemActive? && x.confirmed && x.paid :: x.id
  }

  /**
   A repair run of showtime s: the candidates are found in db and rights; an apply
   run (expected is the reviewed digest) then locks the tickets as they are in
   locked, and inserts into the table as it is in current.
   */
  function Repair(db: Db, rights: seq<Right>, s: Id, digest: seq<Candidate> -> string, expected: Option<string>,
                  locked: seq<Item>, current: seq<Right>, audit: Id): Result<(Report, seq<Right>)>
  {
    var candidates := Candidates(db, rights, s);
    var ids := TicketIds(candidates);
    if s !in db.showtimes then Err(ShowtimeNotFound)
    else if expected.None? then Ok((Report(|ids|, |candidates|, 0, None), current))
    else if expected.value != digest(candidates) then Err(CandidatesChanged)
    else if |Lockable(locked, s, ids)| != |ids| then Err(CandidatesChanged)
    else
      var t := current + RepairRows(s, candidates, audit);
      if Indexed(t) then Ok((Report(|ids|, |candidates|, |candidates|, Some(audit)), t)) else Err(CandidatesChanged)
  }
}
