/** The order-free form of a configuration, and when the editor reports an unsaved change. */
module BenefitCanonical {
  import opened BenefitEditor
  import opened Sorting
  import opened Texts

  /** One benefit as a live run would apply it. */
  datatype Entry = Entry(
    identity: string, limited: bool, copies: seq<Copy>, tiers: seq<string>,
    quantity: Option<int>, selectionPriority: Option<int>, excludes: seq<string>)

  /** The locale order of the editor's lists (localeCompare) and the default order of texts. */
  datatype Orders = Orders(locale: (string, string) -> bool, text: (string, string) -> bool)

  ghost predicate AreOrders(o: Orders) {
    TotalOrder(o.locale) && TotalOrder(o.text)
  }

  function Self(s: string): string {
    s
  }

  function SortTexts(xs: seq<string>, o: Orders): seq<string> {
    SortBy(xs, Self, o.text)
  }

  function LimitedOf(benefits: seq<Benefit>): set<string> {
    set b <- benefits | b.kind.Limited? :: b.identity
  }

  function TrimCopy(c: Copy): Copy {
    Copy(Trim(c.name), Trim(c.description))
  }

  function EntryOf(b: Benefit, limited: set<string>, o: Orders): Entry {
    Entry(
      Trim(b.identity), b.kind.Limited?,
      [TrimCopy(b.ko), TrimCopy(b.localized.en), TrimCopy(b.localized.th), TrimCopy(b.localized.zhCn)],
      SortTexts(TrimEach(b.tiers), o),
      if b.kind.Limited? then Some(b.kind.quantity) else None,
      if b.kind.Limited? then Some(b.kind.selectionPriority) else None,
      if b.kind.Limited? then SortTexts(Among(b.excludes, limited), o) else [])
  }

  function EntriesOf(benefits: seq<Benefit>, limited: set<string>, o: Orders): seq<Entry> {
    Map(benefits, b => EntryOf(b, limited, o))
  }

  function IdentityOf(b: Benefit): string {
    b.identity
  }

  function EntryIdentity(e: Entry): string {
    e.identity
  }

  /** Benefits by identity, each in its order-free form. */
  function CanonicalBenefits(benefits: seq<Benefit>, o: Orders): seq<Entry> {
    EntriesOf(SortBy(benefits, IdentityOf, o.locale), LimitedOf(benefits), o)
  }

  // ----- the canonical form as sorted entries -----

  predicate TrimmedIdentities(benefits: seq<Benefit>) {
    forall i | 0 <= i < |benefits| :: IsTrimmed(benefits[i].identity)
  }

  function Entries(benefits: seq<Benefit>, o: Orders): seq<Entry> {
    EntriesOf(benefits, LimitedOf(benefits), o)
  }

  lemma SortEntries(benefits: seq<Benefit>, o: Orders)
    requires TrimmedIdentities(benefits)
    ensures CanonicalBenefits(benefits, o) == SortBy(Entries(benefits, o), EntryIdentity, o.locale)
  {
    var limited := LimitedOf(benefits);
    forall i | 0 <= i < |benefits| ensures EntryIdentity(EntryOf(benefits[i], limited, o)) == IdentityOf(benefits[i]) {
      TrimTrimmed(benefits[i].identity);
    }
    SortMaps(benefits, b => EntryOf(b, limited, o), IdentityOf, EntryIdentity, o.locale);
  }

  /** Benefits with one identity are applied alike; so it is when identities are distinct. */
  ghost predicate IdentityDetermines(benefits: seq<Benefit>, o: Orders) {
    KeyDetermines(Entries(benefits, o), EntryIdentity)
  }

  lemma EntryKeepsIdentity(benefits: seq<Benefit>, o: Orders, e: Entry) returns (i: nat)
    requires TrimmedIdentities(benefits) && e in Entries(benefits, o)
    ensures i < |benefits| && Entries(benefits, o)[i] == e && e.identity == benefits[i].identity
  {
    i :| 0 <= i < |benefits| && Entries(benefits, o)[i] == e;
    TrimTrimmed(benefits[i].identity);
  }

  lemma DistinctIdentitiesDetermine(benefits: seq<Benefit>, o: Orders)
    requires TrimmedIdentities(benefits)
    requires forall i, j | 0 <= i < j < |benefits| :: benefits[i].identity != benefits[j].identity
    ensures IdentityDetermines(benefits, o)
  {
    var es := Entries(benefits, o);
    forall x, y | x in es && y in es && EntryIdentity(x) == EntryIdentity(y) ensures x == y {
      var i := EntryKeepsIdentity(benefits, o, x);
      var j := EntryKeepsIdentity(benefits, o, y);
    }
  }

  /** No change is reported exactly when both sides hold the same entries, in whatever order. */
  lemma ChangeIsExact(a: seq<Benefit>, b: seq<Benefit>, o: Orders)
    requires AreOrders(o) && TrimmedIdentities(a) && TrimmedIdentities(b) && IdentityDetermines(a, o)
    ensures CanonicalBenefits(a, o) == CanonicalBenefits(b, o) <==> multiset(Entries(a, o)) == multiset(Entries(b, o))
  {
    SortEntries(a, o);
    SortEntries(b, o);
    SortIgnoresOrder(Entries(a, o), Entries(b, o), EntryIdentity, o.locale);
  }

  lemma SameLimited(a: seq<Benefit>, b: seq<Benefit>)
    requires multiset(a) == multiset(b)
    ensures LimitedOf(a) == LimitedOf(b)
  {
    forall x ensures x in a <==> x in b {
      assert x in multiset(a) <==> x in multiset(b);
    }
  }

  /** The order of the benefits does not matter. */
  lemma OrderDoesNotMatter(a: seq<Benefit>, b: seq<Benefit>, o: Orders)
    requires AreOrders(o) && TrimmedIdentities(a) && TrimmedIdentities(b)
    requires IdentityDetermines(a, o) && multiset(a) == multiset(b)
    ensures CanonicalBenefits(a, o) == CanonicalBenefits(b, o)
  {
    SameLimited(a, b);
    var limited := LimitedOf(a);
    MapPermutes(a, b, x => EntryOf(x, limited, o));
    ChangeIsExact(a, b, o);
  }

  // ----- loading a saved configuration into the form -----

  /** The quantity and the priority are columns of 32-bit integers. */
  predicate FitsColumn(n: int) {
    1 <= n <= 0x7fff_ffff
  }

  /** What saving a benefit demands of it, except for its tiers. */
  predicate FitsForm(b: Benefit) {
    && b.identity != "" && IsTrimmed(b.identity)
    && !IsBlank(b.ko) && MissingLocale(b.localized).None?
    && (b.kind.Limited? ==> FitsColumn(b.kind.quantity) && FitsColumn(b.kind.selectionPriority) && AreItems(b.excludes))
  }

  predicate AllFit(benefits: seq<Benefit>) {
    forall i | 0 <= i < |benefits| :: FitsForm(benefits[i])
  }

  /** The tiers as the form gives them back. */
  function TiersBack(b: Benefit): seq<string> {
    SplitCsv(JoinCsv(b.tiers))
  }

  /** What building its draft gives back. */
  function Rebuilt(b: Benefit, limited: set<string>): Benefit {
    b.(ko := TrimCopy(b.ko), tiers := TiersBack(b), excludes := if b.kind.Limited? then Among(b.excludes, limited) else [])
  }

  lemma RebuildsOne(b: Benefit, index: nat, limited: set<string>, ns: Notations)
    requires FitsForm(b)
    ensures BuildOne(DraftOf(b, ns), index, limited, ns) ==
            if TiersBack(b) == [] then Err(MissingText(index)) else Ok(Rebuilt(b, limited))
  {
    if b.kind.Limited? { RebuildsLimited(b, index, limited, ns); } else { RebuildsIncluded(b, index, limited, ns); }
  }

  lemma RebuildsIncluded(b: Benefit, index: nat, limited: set<string>, ns: Notations)
    requires FitsForm(b) && b.kind.Included?
    ensures BuildOne(DraftOf(b, ns), index, limited, ns) ==
            if TiersBack(b) == [] then Err(MissingText(index)) else Ok(Rebuilt(b, limited))
  {
    TrimTrimmed(b.identity);
    assert Rebuilt(b, limited) == Benefit(Included, b.identity, TrimCopy(b.ko), b.localized, TiersBack(b), []);
  }

  lemma RebuildsLimited(b: Benefit, index: nat, limited: set<string>, ns: Notations)
    requires FitsForm(b) && b.kind.Limited?
    ensures BuildOne(DraftOf(b, ns), index, limited, ns) ==
            if TiersBack(b) == [] then Err(MissingText(index)) else Ok(Rebuilt(b, limited))
  {
    TrimTrimmed(b.identity);
    NumbersAndExclusions(b, ns);
    assert Rebuilt(b, limited)
        == Benefit(b.kind, b.identity, TrimCopy(b.ko), b.localized, TiersBack(b), Among(b.excludes, limited));
  }

  lemma NumbersAndExclusions(b: Benefit, ns: Notations)
    requires FitsForm(b) && b.kind.Limited?
    ensures var d := DraftOf(b, ns);
      && ToInteger(d.quantity, ns) == Some(b.kind.quantity) && ToInteger(d.selectionPriority, ns) == Some(b.kind.selectionPriority)
      && SplitCsv(d.excludes) == b.excludes
  {
    CsvRoundTrip(b.excludes);
    NumberRoundTrip(b.kind.quantity, ns);
    NumberRoundTrip(b.kind.selectionPriority, ns);
  }

  function RebuiltAll(benefits: seq<Benefit>, limited: set<string>): (r: seq<Benefit>)
    ensures |r| == |benefits| && forall i | 0 <= i < |r| :: r[i] == Rebuilt(benefits[i], limited)
  {
    seq(|benefits|, i requires 0 <= i < |benefits| => Rebuilt(benefits[i], limited))
  }

  lemma LimitedOfDrafts(benefits: seq<Benefit>, ns: Notations)
    requires AllFit(benefits)
    ensures LimitedIdentities(DraftsFromConfiguration(benefits, ns)) == LimitedOf(benefits)
  {
    var drafts := DraftsFromConfiguration(benefits, ns);
    forall x ensures x in LimitedIdentities(drafts) <==> x in LimitedOf(benefits) {
      forall i | 0 <= i < |benefits| ensures Trim(drafts[i].identity) == benefits[i].identity {
        assert FitsForm(benefits[i]);
        TrimTrimmed(benefits[i].identity);
      }
      if x in LimitedOf(benefits) {
        var i :| 0 <= i < |benefits| && benefits[i].kind.Limited? && benefits[i].identity == x;
        assert drafts[i] in drafts && drafts[i].limited && Trim(drafts[i].identity) == x;
      }
      if x in LimitedIdentities(drafts) {
        var i :| 0 <= i < |drafts| && drafts[i].limited && Trim(drafts[i].identity) == x;
        assert benefits[i] in benefits;
      }
    }
  }

  predicate SomeTierBack(benefits: seq<Benefit>) {
    forall i | 0 <= i < |benefits| :: TiersBack(benefits[i]) != []
  }

  /** The drafts build exactly when each benefit still names a tier. */
  lemma BuildsExactly(benefits: seq<Benefit>, ns: Notations)
    requires AllFit(benefits)
    ensures var built := Build(DraftsFromConfiguration(benefits, ns), ns);
      && (built.Ok? <==> SomeTierBack(benefits))
      && (built.Ok? ==> built.value == RebuiltAll(benefits, LimitedOf(benefits)))
  {
    var limited := LimitedOf(benefits);
    var results := BuildEach(DraftsFromConfiguration(benefits, ns), ns);
    LimitedOfDrafts(benefits, ns);
    forall i | 0 <= i < |results|
      ensures results[i] == if TiersBack(benefits[i]) == [] then Err(MissingText(i)) else Ok(Rebuilt(benefits[i], limited))
    {
      assert FitsForm(benefits[i]);
      RebuildsOne(benefits[i], i, limited, ns);
    }
    if SomeTierBack(benefits) {
      CollectAll(results, |results|);
      assert Collect(results, |results|).value == RebuiltAll(benefits, limited);
    } else {
      var i :| 0 <= i < |benefits| && TiersBack(benefits[i]) == [];
      CollectFails(results, i);
    }
  }

  lemma CollectFails(results: seq<Result<Benefit>>, i: nat)
    requires i < |results| && results[i].Err?
    ensures Collect(results, |results|).Err?
  {
    FirstProblemStays(results, i + 1, |results|);
  }

  lemma {:induction false} AmongTwice(items: seq<string>, allowed: set<string>)
    ensures Among(Among(items, allowed), allowed) == Among(items, allowed)
  {
    if items != [] {
      AmongTwice(items[1..], allowed);
      if items[0] in allowed {
        assert Among(items, allowed)[1..] == Among(items[1..], allowed);
      } else {
        assert Among(items, allowed) == Among(items[1..], allowed);
      }
    }
  }

  lemma TrimTwice(c: Copy)
    ensures TrimCopy(TrimCopy(c)) == TrimCopy(c)
  {
    TrimIsTrimmed(c.name);
    TrimIsTrimmed(c.description);
    TrimTrimmed(Trim(c.name));
    TrimTrimmed(Trim(c.description));
  }

  /** The tiers a benefit is applied to survive the form. */
  predicate TiersFit(b: Benefit) {
    b.tiers != [] && HoldItems(b.tiers)
  }

  predicate AllTiersFit(benefits: seq<Benefit>) {
    forall i | 0 <= i < |benefits| :: TiersFit(benefits[i])
  }

  lemma SameEntry(b: Benefit, limited: set<string>, o: Orders)
    requires TiersFit(b)
    ensures TiersBack(b) != [] && EntryOf(Rebuilt(b, limited), limited, o) == EntryOf(b, limited, o)
  {
    TrimTwice(b.ko);
    CsvTrims(b.tiers);
    ItemsAreTrimmed(TrimEach(b.tiers));
    if b.kind.Limited? { AmongTwice(b.excludes, limited); }
  }

  lemma RebuiltKeepsIdentities(benefits: seq<Benefit>)
    requires AllFit(benefits)
    ensures TrimmedIdentities(benefits) && TrimmedIdentities(RebuiltAll(benefits, LimitedOf(benefits)))
  {
    forall i | 0 <= i < |benefits| ensures IsTrimmed(benefits[i].identity) { assert FitsForm(benefits[i]); }
  }

  /** An editor that just loaded a saved configuration builds it without problem and reports no unsaved change. */
  lemma FreshlyLoadedIsUnchanged(benefits: seq<Benefit>, o: Orders, ns: Notations)
    requires AllFit(benefits) && AllTiersFit(benefits)
    ensures Unchanged(benefits, o, ns)
  {
    var limited := LimitedOf(benefits);
    var rebuilt := RebuiltAll(benefits, limited);
    BuildsExactly(benefits, ns);
    LimitedOfRebuilt(benefits);
    RebuiltKeepsIdentities(benefits);
    forall i | 0 <= i < |benefits|
      ensures TiersBack(benefits[i]) != [] && EntryOf(rebuilt[i], limited, o) == EntryOf(benefits[i], limited, o)
    {
      assert TiersFit(benefits[i]);
      SameEntry(benefits[i], limited, o);
    }
    SortEntries(benefits, o);
    SortEntries(rebuilt, o);
    assert Entries(rebuilt, o) == Entries(benefits, o);
  }

  /** The drafts of a saved configuration build, and build what is saved. */
  predicate Unchanged(benefits: seq<Benefit>, o: Orders, ns: Notations) {
    var built := Build(DraftsFromConfiguration(benefits, ns), ns);
    built.Ok? && CanonicalBenefits(built.value, o) == CanonicalBenefits(benefits, o)
  }

  lemma BackAreItems(b: Benefit)
    ensures AreItems(TiersBack(b)) && TrimEach(TiersBack(b)) == TiersBack(b)
  {
    forall k | 0 <= k < |TiersBack(b)| ensures IsItem(TiersBack(b)[k]) { SplitGivesItems(JoinCsv(b.tiers), k); }
    ItemsAreTrimmed(TiersBack(b));
  }

  /** A benefit whose entry is that of some benefit given back has tiers that fit. */
  lemma EntryHasItems(b: Benefit, c: Benefit, limited: set<string>, limitedBack: set<string>, o: Orders)
    requires TiersBack(c) != []
    requires EntryOf(b, limited, o).tiers == EntryOf(Rebuilt(c, limited), limitedBack, o).tiers
    ensures TiersFit(b)
  {
    var items := TiersBack(c);
    BackAreItems(c);
    SortPermutes(TrimEach(b.tiers), Self, o.text);
    SortPermutes(items, Self, o.text);
    assert multiset(TrimEach(b.tiers)) == multiset(items);
    assert |b.tiers| == |multiset(TrimEach(b.tiers))| == |items|;
    forall i | 0 <= i < |b.tiers| ensures IsItem(TrimEach(b.tiers)[i]) {
      assert TrimEach(b.tiers)[i] in multiset(items);
    }
  }

  lemma SameFormSameEntries(a: seq<Benefit>, b: seq<Benefit>, o: Orders)
    requires TrimmedIdentities(a) && TrimmedIdentities(b) && CanonicalBenefits(a, o) == CanonicalBenefits(b, o)
    ensures multiset(Entries(a, o)) == multiset(Entries(b, o))
  {
    SortEntries(a, o);
    SortEntries(b, o);
    SortPermutes(Entries(a, o), EntryIdentity, o.locale);
    SortPermutes(Entries(b, o), EntryIdentity, o.locale);
  }

  lemma EntryAt(benefits: seq<Benefit>, o: Orders, i: nat)
    requires i < |benefits|
    ensures |Entries(benefits, o)| == |benefits| && Entries(benefits, o)[i] == EntryOf(benefits[i], LimitedOf(benefits), o)
  {
  }

  lemma SameElements<T>(a: seq<T>, b: seq<T>, i: nat) returns (j: nat)
    requires multiset(a) == multiset(b) && i < |a|
    ensures j < |b| && b[j] == a[i]
  {
    assert a[i] in multiset(b);
    j :| 0 <= j < |b| && b[j] == a[i];
  }

  lemma UnchangedTiersFit(benefits: seq<Benefit>, o: Orders, ns: Notations, i: nat)
    requires AllFit(benefits) && Unchanged(benefits, o, ns) && i < |benefits|
    ensures TiersFit(benefits[i])
  {
    var limited := LimitedOf(benefits);
    var rebuilt := RebuiltAll(benefits, limited);
    BuildsExactly(benefits, ns);
    RebuiltKeepsIdentities(benefits);
    SameFormSameEntries(benefits, rebuilt, o);
    EntryAt(benefits, o, i);
    var j := SameElements(Entries(benefits, o), Entries(rebuilt, o), i);
    EntryAt(rebuilt, o, j);
    EntryHasItems(benefits[i], benefits[j], limited, LimitedOf(rebuilt), o);
  }

  /**
   A freshly loaded editor reports no change if and only if every benefit has a tier
   and every tier name, white space around it aside, is non-empty and free of commas.
   */
  lemma FreshlyLoadedExactly(benefits: seq<Benefit>, o: Orders, ns: Notations)
    requires AllFit(benefits)
    ensures Unchanged(benefits, o, ns) <==> AllTiersFit(benefits)
  {
    if AllTiersFit(benefits) { FreshlyLoadedIsUnchanged(benefits, o, ns); }
    if Unchanged(benefits, o, ns) {
      forall i | 0 <= i < |benefits| ensures TiersFit(benefits[i]) { UnchangedTiersFit(benefits, o, ns, i); }
    }
  }

  lemma LimitedOfRebuilt(benefits: seq<Benefit>)
    ensures LimitedOf(RebuiltAll(benefits, LimitedOf(benefits))) == LimitedOf(benefits)
  {
    var rebuilt := RebuiltAll(benefits, LimitedOf(benefits));
    forall x ensures x in LimitedOf(rebuilt) <==> x in LimitedOf(benefits) {
      if x in LimitedOf(benefits) {
        var i :| 0 <= i < |benefits| && benefits[i].kind.Limited? && benefits[i].identity == x;
        assert rebuilt[i] in rebuilt;
      }
      if x in LimitedOf(rebuilt) {
        var i :| 0 <= i < |rebuilt| && rebuilt[i].kind.Limited? && rebuilt[i].identity == x;
        assert benefits[i] in benefits;
      }
    }
  }

  /** A tier name with a comma comes back as two: the editor reports a change although nobody made one. */
  lemma CommaReportsChange(b: Benefit, o: Orders, ns: Notations)
    requires FitsForm(b) && b.tiers == ["A,B"]
    ensures TiersBack(b) == ["A", "B"]
    ensures Build(DraftsFromConfiguration([b], ns), ns).Ok? && !Unchanged([b], o, ns)
  {
    CommaSplits();
    BuildsExactly([b], ns);
    FreshlyLoadedExactly([b], o, ns);
    CsvTrims(b.tiers);
    assert [b][0] == b && !TiersFit([b][0]);
  }

  lemma CommaSplits()
    ensures SplitCsv(JoinCsv(["A,B"])) == ["A", "B"]
  {
    assert "A" + [','] + "B" == "A,B";
    SplitFirst("A", ',', "B");
    SplitWhole("B", ',');
    ItemsAreTrimmed(["A", "B"]);
    NonEmptyAll(["A", "B"]);
  }

  // ----- which changes are reported -----

  /** Two versions of a benefit that a live run would apply alike. */
  predicate Alike(x: Benefit, y: Benefit, limitedX: set<string>, limitedY: set<string>) {
    && x.kind == y.kind
    && TrimCopy(x.ko) == TrimCopy(y.ko) && TrimCopy(x.localized.en) == TrimCopy(y.localized.en)
    && TrimCopy(x.localized.th) == TrimCopy(y.localized.th) && TrimCopy(x.localized.zhCn) == TrimCopy(y.localized.zhCn)
    && multiset(TrimEach(x.tiers)) == multiset(TrimEach(y.tiers))
    && (x.kind.Limited? ==> multiset(Among(x.excludes, limitedX)) == multiset(Among(y.excludes, limitedY)))
  }

  lemma SameTexts(a: seq<string>, b: seq<string>, o: Orders)
    requires AreOrders(o)
    ensures SortTexts(a, o) == SortTexts(b, o) <==> multiset(a) == multiset(b)
  {
    SortIgnoresOrder(a, b, Self, o.text);
  }

  lemma AlikeExactly(x: Benefit, y: Benefit, limitedX: set<string>, limitedY: set<string>, o: Orders)
    requires AreOrders(o) && IsTrimmed(x.identity) && IsTrimmed(y.identity)
    ensures EntryOf(x, limitedX, o) == EntryOf(y, limitedY, o) <==>
            x.identity == y.identity && Alike(x, y, limitedX, limitedY)
  {
    TrimTrimmed(x.identity);
    TrimTrimmed(y.identity);
    SameTexts(TrimEach(x.tiers), TrimEach(y.tiers), o);
    SameTexts(Among(x.excludes, limitedX), Among(y.excludes, limitedY), o);
    ListsOfFour(x, y);
  }

  function Copies(b: Benefit): seq<Copy> {
    [TrimCopy(b.ko), TrimCopy(b.localized.en), TrimCopy(b.localized.th), TrimCopy(b.localized.zhCn)]
  }

  lemma ListsOfFour(x: Benefit, y: Benefit)
    ensures Copies(x) == Copies(y) <==>
            && TrimCopy(x.ko) == TrimCopy(y.ko) && TrimCopy(x.localized.en) == TrimCopy(y.localized.en)
            && TrimCopy(x.localized.th) == TrimCopy(y.localized.th) && TrimCopy(x.localized.zhCn) == TrimCopy(y.localized.zhCn)
  {
    if Copies(x) == Copies(y) {
      assert Copies(x)[0] == Copies(y)[0] && Copies(x)[1] == Copies(y)[1];
      assert Copies(x)[2] == Copies(y)[2] && Copies(x)[3] == Copies(y)[3];
    }
  }

  predicate DistinctNames(benefits: seq<Benefit>) {
    forall i, j | 0 <= i < j < |benefits| :: benefits[i].identity != benefits[j].identity
  }

  /** This benefit is in the other configuration, unchanged. */
  predicate IsKept(a: seq<Benefit>, b: seq<Benefit>, i: nat)
    requires i < |a|
  {
    exists j | 0 <= j < |b| :: b[j].identity == a[i].identity && Alike(a[i], b[j], LimitedOf(a), LimitedOf(b))
  }

  predicate Distinct<T(==)>(xs: seq<T>) {
    forall i, j | 0 <= i < j < |xs| :: xs[i] != xs[j]
  }

  lemma {:induction false} CountsOne<T>(xs: seq<T>, x: T)
    requires Distinct(xs)
    ensures multiset(xs)[x] == if x in xs then 1 else 0
  {
    if xs != [] {
      var n := |xs| - 1;
      CountsOne(xs[..n], x);
      assert xs == xs[..n] + [xs[n]];
    }
  }

  /** Two duplicate-free lists hold the same elements when they are as long and one is within the other. */
  lemma SameWhenWithin<T>(a: seq<T>, b: seq<T>)
    requires Distinct(a) && Distinct(b) && |a| == |b| && forall x <- a :: x in b
    ensures multiset(a) == multiset(b)
  {
    forall x ensures multiset(a)[x] <= multiset(b)[x] {
      CountsOne(a, x);
      CountsOne(b, x);
    }
    assert multiset(b) == multiset(a) + (multiset(b) - multiset(a));
    assert |multiset(b) - multiset(a)| == 0;
  }

  lemma EntriesDistinct(benefits: seq<Benefit>, o: Orders)
    requires TrimmedIdentities(benefits) && DistinctNames(benefits)
    ensures Distinct(Entries(benefits, o))
  {
    var es := Entries(benefits, o);
    forall i, j | 0 <= i < j < |es| ensures es[i] != es[j] {
      EntryAt(benefits, o, i);
      EntryAt(benefits, o, j);
      TrimTrimmed(benefits[i].identity);
      TrimTrimmed(benefits[j].identity);
    }
  }

  lemma KeptEntry(a: seq<Benefit>, b: seq<Benefit>, o: Orders, i: nat)
    requires AreOrders(o) && TrimmedIdentities(a) && TrimmedIdentities(b) && i < |a|
    ensures |Entries(a, o)| == |a| && (Entries(a, o)[i] in Entries(b, o) <==> IsKept(a, b, i))
  {
    EntryAt(a, o, i);
    forall j | 0 <= j < |b|
      ensures Entries(a, o)[i] == Entries(b, o)[j] <==>
              b[j].identity == a[i].identity && Alike(a[i], b[j], LimitedOf(a), LimitedOf(b))
    {
      EntryAt(b, o, j);
      AlikeExactly(a[i], b[j], LimitedOf(a), LimitedOf(b), o);
    }
  }

  /**
   No change is reported exactly when both configurations have as many benefits and
   each one is kept: same kind, numbers, translated texts, tiers and exclusions.
   */
  lemma ReportedExactly(a: seq<Benefit>, b: seq<Benefit>, o: Orders)
    requires AreOrders(o) && TrimmedIdentities(a) && TrimmedIdentities(b) && DistinctNames(a) && DistinctNames(b)
    ensures CanonicalBenefits(a, o) == CanonicalBenefits(b, o) <==>
            |a| == |b| && forall i | 0 <= i < |a| :: IsKept(a, b, i)
  {
    var ea, eb := Entries(a, o), Entries(b, o);
    DistinctIdentitiesDetermine(a, o);
    ChangeIsExact(a, b, o);
    EntriesDistinct(a, o);
    EntriesDistinct(b, o);
    forall i | 0 <= i < |a| ensures ea[i] in eb <==> IsKept(a, b, i) { KeptEntry(a, b, o, i); }
    assert |ea| == |a| && |eb| == |b|;
    if |a| == |b| && forall i | 0 <= i < |a| :: IsKept(a, b, i) {
      SameWhenWithin(ea, eb);
    }
    if multiset(ea) == multiset(eb) {
      assert |ea| == |multiset(ea)| == |eb|;
      forall i | 0 <= i < |a| ensures IsKept(a, b, i) { assert ea[i] in multiset(eb); }
    }
  }
}
