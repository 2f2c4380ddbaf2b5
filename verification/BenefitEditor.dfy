/** The benefit editor: a saved configuration as form drafts, back again, and whether anything changed. */
module BenefitEditor {
  import opened Texts

  datatype Option<+T> = None | Some(value: T)
  datatype Result<T> = Ok(value: T) | Err(problem: Problem)

  datatype Locale = En | Th | ZhCn
  datatype Copy = Copy(name: string, description: string)
  datatype Translations = Translations(en: Copy, th: Copy, zhCn: Copy)
  datatype Kind = Included | Limited(quantity: int, selectionPriority: int)

  datatype Benefit = Benefit(
    kind: Kind, identity: string, ko: Copy, localized: Translations, tiers: seq<string>, excludes: seq<string>)

  /** The form's fields: lists are comma-separated, numbers are text. */
  datatype Draft = Draft(
    limited: bool, identity: string, ko: Copy, localized: Translations, tiers: string,
    quantity: string, selectionPriority: string, excludes: string)

  datatype Problem =
    | MissingTranslation(index: nat, locale: Locale) | MissingText(index: nat)
    | BadQuantity(index: nat) | BadPriority(index: nat)

  // ----- comma-separated lists -----

  function TrimEach(parts: seq<string>): (r: seq<string>)
    ensures |r| == |parts| && forall i | 0 <= i < |r| :: r[i] == Trim(parts[i])
  {
    seq(|parts|, i requires 0 <= i < |parts| => Trim(parts[i]))
  }

  function NonEmpty(parts: seq<string>): seq<string> {
    if parts == [] then []
    else (if parts[0] != "" then [parts[0]] else []) + NonEmpty(parts[1..])
  }

  function SplitCsv(value: string): seq<string> {
    NonEmpty(TrimEach(Split(value, [','])))
  }

  function JoinCsv(items: seq<string>): string {
    if items == [] then "" else if |items| == 1 then items[0] else items[0] + ", " + JoinCsv(items[1..])
  }

  /** What a comma-separated list can hold. */
  predicate IsItem(s: string) {
    s != "" && IsTrimmed(s) && Lacks(s, ',')
  }

  predicate AreItems(items: seq<string>) {
    forall i | 0 <= i < |items| :: IsItem(items[i])
  }

  /** Items, apart from white space around them. */
  predicate HoldItems(texts: seq<string>) {
    AreItems(TrimEach(texts))
  }

  lemma {:induction false} NonEmptyAll(items: seq<string>)
    requires forall i | 0 <= i < |items| :: items[i] != ""
    ensures NonEmpty(items) == items
  {
    if items != [] { NonEmptyAll(items[1..]); }
  }

  lemma LeadIsTrimmed(lead: string, text: string)
    requires IsItem(Trim(text)) && (lead == "" || lead == " ")
    ensures Lacks(lead + text, ',') && Trim(lead + text) == Trim(text)
  {
    TrimLost(text, ',');
    TrimAfterSpace(text);
    if lead == "" { assert lead + text == text; }
  }

  lemma OnePart(text: string, item: string)
    requires Lacks(text, ',') && Trim(text) == item
    ensures TrimEach(Split(text, [','])) == [item]
  {
    SplitWhole(text, ',');
  }

  lemma OneMorePart(text: string, first: string, rest: string, item: string, items: seq<string>)
    requires text == first + [','] + rest && Lacks(first, ',') && Trim(first) == item
    requires TrimEach(Split(rest, [','])) == items
    ensures TrimEach(Split(text, [','])) == [item] + items
  {
    SplitFirst(first, ',', rest);
  }

  lemma Regroup(a: string, b: string, c: string)
    ensures a + (b + ", " + c) == (a + b) + [','] + (" " + c)
  {
  }

  lemma JoinUnfolds(items: seq<string>, lead: string)
    requires |items| > 1
    ensures lead + JoinCsv(items) == (lead + items[0]) + [','] + (" " + JoinCsv(items[1..]))
  {
    Regroup(lead, items[0], JoinCsv(items[1..]));
  }

  lemma TailItems(texts: seq<string>)
    requires texts != [] && HoldItems(texts)
    ensures IsItem(Trim(texts[0])) && HoldItems(texts[1..])
    ensures TrimEach(texts) == [Trim(texts[0])] + TrimEach(texts[1..])
  {
    assert TrimEach(texts)[0] == Trim(texts[0]);
    forall i | 0 <= i < |texts[1..]| ensures IsItem(TrimEach(texts[1..])[i]) { assert TrimEach(texts)[i + 1] == TrimEach(texts[1..])[i]; }
  }

  /** Splitting what follows a comma and a space trims to the same items. */
  lemma {:induction false} PartsOfJoin(texts: seq<string>, lead: string, text: string)
    requires texts != [] && HoldItems(texts) && text == lead + JoinCsv(texts)
    requires lead == "" || lead == " "
    ensures TrimEach(Split(text, [','])) == TrimEach(texts)
    decreases |texts|
  {
    TailItems(texts);
    LeadIsTrimmed(lead, texts[0]);
    if |texts| == 1 {
      OnePart(text, Trim(texts[0]));
    } else {
      var rest := " " + JoinCsv(texts[1..]);
      JoinUnfolds(texts, lead);
      PartsOfJoin(texts[1..], " ", rest);
      OneMorePart(text, lead + texts[0], rest, Trim(texts[0]), TrimEach(texts[1..]));
    }
  }

  lemma {:induction false} NonEmptyHolds(parts: seq<string>, k: nat)
    requires k < |NonEmpty(parts)|
    ensures NonEmpty(parts)[k] in parts && NonEmpty(parts)[k] != ""
  {
    if parts[0] == "" { NonEmptyHolds(parts[1..], k); } else if k > 0 { NonEmptyHolds(parts[1..], k - 1); }
  }

  lemma SplitGivesItems(value: string, k: nat)
    requires k < |SplitCsv(value)|
    ensures IsItem(SplitCsv(value)[k])
  {
    var parts := Split(value, [',']);
    NonEmptyHolds(TrimEach(parts), k);
    var j :| 0 <= j < |parts| && TrimEach(parts)[j] == SplitCsv(value)[k];
    PartsLack(value, ',', j);
    TrimLacks(parts[j], ',');
    TrimIsTrimmed(parts[j]);
  }

  /** A list comes back from the form trimmed exactly when every item is more than white space and free of commas. */
  lemma CsvTrims(texts: seq<string>)
    ensures SplitCsv(JoinCsv(texts)) == TrimEach(texts) <==> HoldItems(texts)
  {
    if HoldItems(texts) {
      if texts == [] {
        SplitWhole("", ',');
        assert Trim("") == "";
      } else {
        PartsOfJoin(texts, "", JoinCsv(texts));
        NonEmptyAll(TrimEach(texts));
      }
    }
    if SplitCsv(JoinCsv(texts)) == TrimEach(texts) {
      forall i | 0 <= i < |texts| ensures IsItem(TrimEach(texts)[i]) { SplitGivesItems(JoinCsv(texts), i); }
    }
  }

  lemma ItemsAreTrimmed(items: seq<string>)
    requires AreItems(items)
    ensures TrimEach(items) == items
  {
    forall i | 0 <= i < |items| ensures Trim(items[i]) == items[i] { TrimTrimmed(items[i]); }
  }

  /** A list survives the form exactly when every item is non-empty, trimmed and free of commas. */
  lemma CsvRoundTrip(items: seq<string>)
    ensures SplitCsv(JoinCsv(items)) == items <==> AreItems(items)
  {
    if AreItems(items) {
      ItemsAreTrimmed(items);
      CsvTrims(items);
    }
    if SplitCsv(JoinCsv(items)) == items {
      forall i | 0 <= i < |items| ensures IsItem(items[i]) { SplitGivesItems(JoinCsv(items), i); }
    }
  }

  // ----- numbers -----

  function Digit(n: nat): char
    requires n < 10
  {
    '0' + n as char
  }

  function Decimal(n: nat): string {
    if n < 10 then [Digit(n)] else Decimal(n / 10) + [Digit(n % 10)]
  }

  predicate IsDecimal(s: string) {
    forall i | 0 <= i < |s| :: '0' <= s[i] <= '9'
  }

  function DecimalValue(s: string): nat
    requires IsDecimal(s)
  {
    if s == "" then 0 else DecimalValue(s[..|s| - 1]) * 10 + (s[|s| - 1] - '0') as int
  }

  /** From here on String writes an exponent. */
  const EXPONENT_FORM: int := 1_000_000_000_000_000_000_000

  /** The notations of numbers besides decimal digits: with an exponent; read with signs, exponents and prefixes. */
  datatype Notations = Notations(exponent: int -> string, other: string -> Option<int>)

  /** String of an integer. */
  function Shown(n: int, ns: Notations): string {
    if n <= -EXPONENT_FORM || EXPONENT_FORM <= n then ns.exponent(n)
    else if n < 0 then "-" + Decimal(-n) else Decimal(n)
  }

  /** Number of a text, when it is an integer. */
  function ToInteger(s: string, ns: Notations): Option<int> {
    var t := Trim(s);
    if t == "" then Some(0) else if IsDecimal(t) then Some(DecimalValue(t)) else ns.other(t)
  }

  lemma {:induction false} DecimalRoundTrip(n: nat)
    ensures Decimal(n) != "" && IsDecimal(Decimal(n)) && DecimalValue(Decimal(n)) == n
  {
    if n < 10 {
      assert Decimal(n)[..0] == "";
    } else {
      DecimalRoundTrip(n / 10);
      assert Decimal(n)[..|Decimal(n)| - 1] == Decimal(n / 10);
    }
  }

  lemma NumberRoundTrip(n: nat, ns: Notations)
    requires n < EXPONENT_FORM
    ensures ToInteger(Shown(n, ns), ns) == Some(n)
  {
    DecimalRoundTrip(n);
    TrimTrimmed(Decimal(n));
  }

  // ----- drafts and definitions -----

  function DraftOf(b: Benefit, ns: Notations): Draft {
    Draft(
      b.kind.Limited?, b.identity, b.ko, b.localized, JoinCsv(b.tiers),
      if b.kind.Limited? then Shown(b.kind.quantity, ns) else "",
      if b.kind.Limited? then Shown(b.kind.selectionPriority, ns) else "",
      JoinCsv(b.excludes))
  }

  function DraftsFromConfiguration(benefits: seq<Benefit>, ns: Notations): (drafts: seq<Draft>)
    ensures |drafts| == |benefits| && forall i | 0 <= i < |drafts| :: drafts[i] == DraftOf(benefits[i], ns)
  {
    seq(|benefits|, i requires 0 <= i < |benefits| => DraftOf(benefits[i], ns))
  }

  function LimitedIdentities(drafts: seq<Draft>): set<string> {
    set d <- drafts | d.limited :: Trim(d.identity)
  }

  predicate IsBlank(c: Copy) {
    Trim(c.name) == "" || Trim(c.description) == ""
  }

  function MissingLocale(t: Translations): Option<Locale> {
    if IsBlank(t.en) then Some(En) else if IsBlank(t.th) then Some(Th) else if IsBlank(t.zhCn) then Some(ZhCn) else None
  }

  function Among(items: seq<string>, allowed: set<string>): seq<string> {
    if items == [] then []
    else (if items[0] in allowed then [items[0]] else []) + Among(items[1..], allowed)
  }

  function BuildOne(d: Draft, index: nat, limited: set<string>, ns: Notations): Result<Benefit> {
    var missing := MissingLocale(d.localized);
    var ko := Copy(Trim(d.ko.name), Trim(d.ko.description));
    var tiers := SplitCsv(d.tiers);
    var excludes := if d.limited then Among(SplitCsv(d.excludes), limited) else [];
    if missing.Some? then Err(MissingTranslation(index, missing.value))
    else if Trim(d.identity) == "" || ko.name == "" || ko.description == "" || tiers == [] then Err(MissingText(index))
    else if !d.limited then Ok(Benefit(Included, Trim(d.identity), ko, d.localized, tiers, excludes))
    else
      var quantity := ToInteger(d.quantity, ns);
      var priority := ToInteger(d.selectionPriority, ns);
      if quantity.None? || quantity.value < 1 then Err(BadQuantity(index))
      else if priority.None? || priority.value < 1 then Err(BadPriority(index))
      else Ok(Benefit(Limited(quantity.value, priority.value), Trim(d.identity), ko, d.localized, tiers, excludes))
  }

  function Extend(benefits: Result<seq<Benefit>>, next: Result<Benefit>): Result<seq<Benefit>> {
    if benefits.Err? then benefits
    else if next.Err? then Err(next.problem) else Ok(benefits.value + [next.value])
  }

  /** The first n results, or the first problem among them. */
  function Collect(results: seq<Result<Benefit>>, n: nat): Result<seq<Benefit>>
    requires n <= |results|
  {
    if n == 0 then Ok([]) else Extend(Collect(results, n - 1), results[n - 1])
  }

  function BuildEach(drafts: seq<Draft>, ns: Notations): (results: seq<Result<Benefit>>)
    ensures |results| == |drafts|
    ensures forall i | 0 <= i < |results| :: results[i] == BuildOne(drafts[i], i, LimitedIdentities(drafts), ns)
  {
    var limited := LimitedIdentities(drafts);
    seq(|drafts|, i requires 0 <= i < |drafts| => BuildOne(drafts[i], i, limited, ns))
  }

  function Build(drafts: seq<Draft>, ns: Notations): Result<seq<Benefit>> {
    Collect(BuildEach(drafts, ns), |drafts|)
  }

  lemma {:induction false} FirstProblemStays(results: seq<Result<Benefit>>, k: nat, n: nat)
    requires k <= n <= |results| && Collect(results, k).Err?
    ensures Collect(results, n) == Collect(results, k)
  {
    if k < n { FirstProblemStays(results, k, n - 1); }
  }

  lemma {:induction false} CollectAll(results: seq<Result<Benefit>>, n: nat)
    requires n <= |results| && forall i | 0 <= i < n :: results[i].Ok?
    ensures Collect(results, n).Ok? && |Collect(results, n).value| == n
    ensures forall i | 0 <= i < n :: Collect(results, n).value[i] == results[i].value
  {
    if n > 0 { CollectAll(results, n - 1); }
  }

  lemma CollectMore(results: seq<Result<Benefit>>, k: nat, benefits: seq<Benefit>)
    requires k < |results| && Collect(results, k) == Ok(benefits)
    ensures results[k].Ok? ==> Collect(results, k + 1) == Ok(benefits + [results[k].value])
    ensures results[k].Err? ==> Collect(results, |results|) == Err(results[k].problem)
  {
    if results[k].Err? { FirstProblemStays(results, k + 1, |results|); }
  }

  method BuildBenefitDefinitions(drafts: seq<Draft>, ns: Notations) returns (r: Result<seq<Benefit>>)
    ensures r == Build(drafts, ns)
  {
    var benefits: seq<Benefit> := [];
    var limitedIdentities := LimitedIdentities(drafts);
    ghost var results := BuildEach(drafts, ns);
    for index := 0 to |drafts|
      invariant Collect(results, index) == Ok(benefits)
    {
      CollectMore(results, index, benefits);
      var built := BuildOne(drafts[index], index, limitedIdentities, ns);
      assert built == results[index];
      if built.Err? { return Err(built.problem); }
      benefits := benefits + [built.value];
    }
    return Ok(benefits);
  }

  // ----- what is refused -----

  predicate IsNamed(c: Copy) {
    Trim(c.name) != "" && Trim(c.description) != ""
  }

  predicate IsPositive(text: string, ns: Notations) {
    ToInteger(text, ns).Some? && ToInteger(text, ns).value >= 1
  }

  /** A draft that is complete: texts in every language, a tier, and positive numbers if the benefit is limited. */
  predicate IsComplete(d: Draft, ns: Notations) {
    && Trim(d.identity) != "" && IsNamed(d.ko) && IsNamed(d.localized.en) && IsNamed(d.localized.th) && IsNamed(d.localized.zhCn)
    && SplitCsv(d.tiers) != []
    && (d.limited ==> IsPositive(d.quantity, ns) && IsPositive(d.selectionPriority, ns))
  }

  /** What an incomplete draft is reported for. */
  predicate IsFault(d: Draft, ns: Notations, problem: Problem) {
    match problem
    case MissingTranslation(_, locale) =>
      (match locale
       case En => !IsNamed(d.localized.en)
       case Th => !IsNamed(d.localized.th) && IsNamed(d.localized.en)
       case ZhCn => !IsNamed(d.localized.zhCn) && IsNamed(d.localized.en) && IsNamed(d.localized.th))
    case MissingText(_) => Trim(d.identity) == "" || !IsNamed(d.ko) || SplitCsv(d.tiers) == []
    case BadQuantity(_) => d.limited && !IsPositive(d.quantity, ns)
    case BadPriority(_) => d.limited && !IsPositive(d.selectionPriority, ns)
  }

  lemma BuildsComplete(d: Draft, index: nat, limited: set<string>, ns: Notations)
    ensures var r := BuildOne(d, index, limited, ns);
      && (r.Ok? <==> IsComplete(d, ns))
      && (r.Err? ==> r.problem.index == index && IsFault(d, ns, r.problem))
  {
  }

  /** The drafts build exactly when all are complete; otherwise the first incomplete one is reported, and for a fault it has. */
  lemma RefusedExactly(drafts: seq<Draft>, ns: Notations)
    ensures var r := Build(drafts, ns);
      && (r.Ok? <==> forall i | 0 <= i < |drafts| :: IsComplete(drafts[i], ns))
      && (r.Err? ==>
            && r.problem.index < |drafts| && IsFault(drafts[r.problem.index], ns, r.problem)
            && forall i | 0 <= i < r.problem.index :: IsComplete(drafts[i], ns))
  {
    var results := BuildEach(drafts, ns);
    forall i | 0 <= i < |drafts|
      ensures results[i].Ok? <==> IsComplete(drafts[i], ns)
      ensures results[i].Err? ==> results[i].problem.index == i && IsFault(drafts[i], ns, results[i].problem)
    {
      BuildsComplete(drafts[i], i, LimitedIdentities(drafts), ns);
    }
    FirstProblem(results, |results|);
  }

  lemma {:induction false} FirstProblem(results: seq<Result<Benefit>>, n: nat)
    requires n <= |results|
    requires forall i | 0 <= i < n :: results[i].Err? ==> results[i].problem.index == i
    ensures Collect(results, n).Ok? <==> forall i | 0 <= i < n :: results[i].Ok?
    ensures Collect(results, n).Err? ==>
              var k := Collect(results, n).problem.index;
              && k < n && results[k].Err? && results[k].problem == Collect(results, n).problem
              && forall i | 0 <= i < k :: results[i].Ok?
  {
    if n > 0 { FirstProblem(results, n - 1); }
  }
}
