/**
 * Contract review: missing standard provisions, risk detection by
 * severity, key-term extraction, and the totals and next steps of the
 * review report. The regular-expression engine is a parameter: `search`
 * answers whether `re.findall(pattern, text, re.IGNORECASE)` found
 * anything, and `findAll` gives the items `re.findall` returns for a key
 * term pattern.
 */
module ContractReview {
  import opened Wrappers
  import opened Text

  // ---------------------------------------------------------------- tables

  /** A risk type's patterns: one plain string, or a list of patterns. */
  datatype Patterns = One(pattern: string) | Many(patterns: seq<string>)

  datatype RiskType = RiskType(name: string, patterns: Patterns)

  /** `[patterns]` for a single string, the list otherwise. */
  function PatternList(p: Patterns): seq<string> {
    match p
    case One(s) => [s]
    case Many(ps) => ps
  }

  const HIGH_RISKS: seq<RiskType> := [
    RiskType("unlimited_liability", Many([@"unlimited\s+liabilit", @"without\s+limit", @"no\s+cap\s+on\s+liabilit"])),
    RiskType("perpetual_term", Many([@"perpetual", @"indefinite\s+(?:term|period)", @"no\s+termination"])),
    RiskType("unilateral_termination", Many([@"(?:may|can|shall)\s+terminate.*without\s+cause", @"sole\s+discretion.*terminat"])),
    RiskType("broad_indemnification", Many([@"indemnif.*any\s+and\s+all", @"hold\s+harmless.*from\s+all"]))
  ]

  const MEDIUM_RISKS: seq<RiskType> := [
    RiskType("missing_force_majeure", One("force majeure")),
    RiskType("missing_liability_cap", One("limitation of liability")),
    RiskType("ambiguous_scope", Many([@"such\s+services\s+as", @"reasonably\s+necessary", @"mutually\s+agreed"])),
    RiskType("short_notice", Many([@"(\d+)\s+days?\s+(?:prior\s+)?notice"]))
  ]

  const LOW_RISKS: seq<RiskType> := [
    RiskType("ambiguous_definitions", Many([@"including\s+but\s+not\s+limited\s+to", @"such\s+as", @"and\s+other"]))
  ]

  /** The standard provisions checklist. */
  const STANDARD_PROVISIONS: seq<string> := [
    "force majeure", "limitation of liability", "indemnification", "confidentiality",
    "intellectual property", "warranties", "termination", "notice", "governing law",
    "dispute resolution", "assignment", "severability", "entire agreement", "amendment"
  ]

  datatype KeyTerm = KeyTerm(term: string, patterns: seq<string>)

  const KEY_TERMS: seq<KeyTerm> := [
    KeyTerm("parties", [
      @"between\s+([A-Z][A-Za-z\s,\.]+?)(?:\s+and\s+|\s*\()", @"\""([A-Z][A-Za-z\s]+)\""\s*\(",
      @"party(?:ies)?[:\s]+([A-Z][A-Za-z\s,\.]+)"]),
    KeyTerm("effective_date", [
      @"effective\s+(?:as\s+of\s+)?(\w+\s+\d+,\s+\d{4})", @"dated\s+(?:as\s+of\s+)?(\w+\s+\d+,\s+\d{4})",
      @"date[:\s]+(\w+\s+\d+,\s+\d{4})"]),
    KeyTerm("term", [
      @"term[:\s]+(\d+)\s+(year|month|day)s?", @"period\s+of\s+(\d+)\s+(year|month|day)s?",
      @"for\s+a\s+period\s+of\s+(\d+)\s+(year|month|day)s?"]),
    KeyTerm("payment", [
      @"\$\s*[\d,]+(?:\.\d{2})?", @"(?:payment|fee|price|compensation)[:\s]+\$\s*[\d,]+(?:\.\d{2})?"]),
    KeyTerm("termination", [
      @"termin(?:ate|ation)", @"cancel(?:lation)?", @"notice\s+period"]),
    KeyTerm("liability", [
      @"liabilit(?:y|ies)", @"limitation\s+of\s+liability", @"indemnif(?:y|ication)"]),
    KeyTerm("governing_law", [
      @"governed\s+by\s+(?:the\s+)?laws?\s+of\s+([A-Za-z\s]+)", @"jurisdiction[:\s]+([A-Za-z\s]+)"])
  ]

  // ---------------------------------------------------------------- check_missing_provisions

  /** The provisions whose lower-cased text does not occur in `textLower`, in checklist order. */
  function MissingOf(provisions: seq<string>, textLower: string): (missing: seq<string>)
    ensures |missing| <= |provisions|
    ensures forall p :: p in missing ==> p in provisions && !Contains(textLower, Lower(p))
    ensures forall p :: p in provisions && !Contains(textLower, Lower(p)) ==> p in missing
    decreases |provisions|
  {
    if provisions == [] then
      []
    else
      var init := provisions[..|provisions| - 1];
      var last := provisions[|provisions| - 1];
      assert forall p :: p in provisions ==> p in init || p == last;
      MissingOf(init, textLower) + (if !Contains(textLower, Lower(last)) then [last] else [])
  }

  /**
   * `check_missing_provisions`: exactly the checklist entries not
   * mentioned in the text, case-insensitively, in checklist order; at most 14.
   */
  method CheckMissingProvisions(text: string) returns (missing: seq<string>)
    ensures missing == MissingOf(STANDARD_PROVISIONS, Lower(text))
    ensures |missing| <= 14
  {
    missing := CollectMissing(STANDARD_PROVISIONS, Lower(text));
  }

  /** The loop of `check_missing_provisions`, over any checklist. */
  method CollectMissing(provisions: seq<string>, textLower: string) returns (missing: seq<string>)
    ensures missing == MissingOf(provisions, textLower)
  {
    missing := [];
    for i := 0 to |provisions|
      invariant missing == MissingOf(provisions[..i], textLower)
    {
      var provision := provisions[i];
      assert provisions[..i + 1][..i] == provisions[..i];
      if !Contains(textLower, Lower(provision)) {
        missing := missing + [provision];
      }
    }
    assert provisions[..|provisions|] == provisions;
  }

  /** The missing provisions keep their checklist order. */
  lemma {:induction false} MissingInOrder(provisions: seq<string>, textLower: string)
    ensures Subsequence(MissingOf(provisions, textLower), provisions)
    decreases |provisions|
  {
    if provisions != [] {
      var init := provisions[..|provisions| - 1];
      MissingInOrder(init, textLower);
      var m := MissingOf(provisions, textLower);
      if m != MissingOf(init, textLower) {
        assert m[..|m| - 1] == MissingOf(init, textLower);
      }
    }
  }

  // ---------------------------------------------------------------- identify_risks

  datatype Risk = Risk(riskType: string, pattern: string, context: string)

  /** The result of `identify_risks`: the three severity lists, always all three. */
  datatype Risks = Risks(high: seq<Risk>, medium: seq<Risk>, low: seq<Risk>)

  /** The first pattern the regex engine finds in the text, if any. */
  function FirstFound(search: (string, string) -> bool, text: string, patterns: seq<string>): (r: Option<string>)
    ensures r.Some? ==> r.value in patterns && search(r.value, text)
    ensures r.None? <==> forall p :: p in patterns ==> !search(p, text)
    ensures r.Some? ==>
              exists k :: 0 <= k < |patterns| && patterns[k] == r.value && NoneFoundBefore(search, text, patterns, k)
  {
    if patterns == [] then None
    else if search(patterns[0], text) then
      assert NoneFoundBefore(search, text, patterns, 0);
      Some(patterns[0])
    else
      assert forall p :: p in patterns ==> p == patterns[0] || p in patterns[1..];
      var r := FirstFound(search, text, patterns[1..]);
      if r.Some? then
        var k :| 0 <= k < |patterns| - 1 && patterns[1..][k] == r.value && NoneFoundBefore(search, text, patterns[1..], k);
        assert patterns[k + 1] == r.value;
        assert NoneFoundBefore(search, text, patterns, k + 1) by {
          forall j | 0 <= j < k + 1 ensures !search(patterns[j], text) {
            if j > 0 { assert patterns[j] == patterns[1..][j - 1]; }
          }
        }
        r
      else r
  }

  /** None of the patterns before position `k` is found. */
  predicate NoneFoundBefore(search: (string, string) -> bool, text: string, patterns: seq<string>, k: int)
    requires 0 <= k <= |patterns|
  {
    forall j :: 0 <= j < k ==> !search(patterns[j], text)
  }

  /**
   * The context window around position `pos`: 100 characters either
   * side, clamped to the text.
   */
  function Window(textLength: nat, pos: nat): (w: (nat, nat))
    requires pos <= textLength
    ensures 0 <= w.0 <= pos <= w.1 <= textLength
    ensures w.1 - w.0 <= 200
    ensures w.0 == (if pos >= 100 then pos - 100 else 0)
    ensures w.1 == (if pos + 100 <= textLength then pos + 100 else textLength)
  {
    (if pos >= 100 then pos - 100 else 0, if pos + 100 <= textLength then pos + 100 else textLength)
  }

  /** `text[start:end].replace('\n', ' ').strip()` for the window around `pos`: at most 200 characters. */
  function Context(text: string, pos: nat): (c: string)
    requires pos <= |text|
    ensures |c| <= 200
  {
    var w := Window(|text|, pos);
    Strip(ReplaceChar(text[w.0..w.1], '\n', ' '))
  }

  /** `risk_name.replace('_', ' ').title()` */
  function RiskTitle(name: string): string {
    Title(ReplaceChar(name, '_', ' '))
  }

  /**
   * What one risk type contributes: only its first found pattern counts,
   * and it is recorded only when the pattern's own text occurs in the
   * lower-cased contract.
   */
  function RiskEntry(search: (string, string) -> bool, text: string, rt: RiskType): (r: seq<Risk>)
    ensures |r| <= 1
    ensures Recorded(search, text, rt) ==> |r| == 1
    ensures r != [] ==>
              var p := FirstFound(search, text, PatternList(rt.patterns));
              && p.Some? && r[0].pattern == p.value && r[0].riskType == RiskTitle(rt.name)
              && Contains(Lower(text), Lower(p.value))
              && |r[0].context| <= 200
  {
    var p := FirstFound(search, text, PatternList(rt.patterns));
    if p.None? then []
    else
      var pos := Find(Lower(text), Lower(p.value));
      if pos < 0 then []
      else [Risk(RiskTitle(rt.name), p.value, Context(text, pos))]
  }

  /** A risk type is recorded: its first found pattern's own text occurs in the lower-cased contract. */
  predicate Recorded(search: (string, string) -> bool, text: string, rt: RiskType) {
    var p := FirstFound(search, text, PatternList(rt.patterns));
    p.Some? && Contains(Lower(text), Lower(p.value))
  }

  /** What each risk type contributes, as a function value. */
  function EntryFn(search: (string, string) -> bool, text: string): RiskType -> seq<Risk> {
    rt => RiskEntry(search, text, rt)
  }

  /** The entries of a severity: at most one per risk type, in table order. */
  function SeverityRisks(search: (string, string) -> bool, text: string, types: seq<RiskType>): (r: seq<Risk>)
    ensures |r| <= |types|
  {
    var f := EntryFn(search, text);
    assert forall k :: 0 <= k < |types| ==> |f(types[k])| <= 1;
    ConcatMapBound(types, f);
    ConcatMap(types, f)
  }

  /** The outer loop over one severity's risk types, appending each type's entry. */
  method CollectRisks(search: (string, string) -> bool, text: string, types: seq<RiskType>)
    returns (found: seq<Risk>)
    ensures found == SeverityRisks(search, text, types)
  {
    found := [];
    for i := 0 to |types|
      invariant found == SeverityRisks(search, text, types[..i])
    {
      var entry := TypeRisk(search, text, types[i]);
      SeverityRisksStep(search, text, types, i);
      found := found + entry;
    }
    assert types[..|types|] == types;
  }

  /**
   * The inner loop over one risk type's patterns: the first pattern found
   * is looked up in the lower-cased text and the loop stops there.
   */
  method TypeRisk(search: (string, string) -> bool, text: string, rt: RiskType) returns (entry: seq<Risk>)
    ensures entry == RiskEntry(search, text, rt)
  {
    entry := [];
    var patterns := PatternList(rt.patterns);
    var j := 0;
    while j < |patterns|
      invariant 0 <= j <= |patterns|
      invariant FirstFound(search, text, patterns) == FirstFound(search, text, patterns[j..])
      invariant entry == []
    {
      if search(patterns[j], text) {
        var matchPos := Find(Lower(text), Lower(patterns[j]));
        if matchPos >= 0 {
          var w := Window(|text|, matchPos);
          var context := Strip(ReplaceChar(text[w.0..w.1], '\n', ' '));
          entry := [Risk(RiskTitle(rt.name), patterns[j], context)];
        }
        return;
      }
      assert patterns[j..][1..] == patterns[j + 1..];
      j := j + 1;
    }
  }

  /**
   * `identify_risks`: the high, medium and low lists, each with at most
   * one entry per risk type of its severity.
   */
  method IdentifyRisks(search: (string, string) -> bool, text: string) returns (risks: Risks)
    ensures risks.high == SeverityRisks(search, text, HIGH_RISKS) && |risks.high| <= 4
    ensures risks.medium == SeverityRisks(search, text, MEDIUM_RISKS) && |risks.medium| <= 4
    ensures risks.low == SeverityRisks(search, text, LOW_RISKS) && |risks.low| <= 1
  {
    var high := CollectRisks(search, text, HIGH_RISKS);
    var medium := CollectRisks(search, text, MEDIUM_RISKS);
    var low := CollectRisks(search, text, LOW_RISKS);
    risks := Risks(high, medium, low);
  }

  /** `r` is the entry of risk type `t`: titled after it, for its first found pattern. */
  predicate EntryOf(search: (string, string) -> bool, text: string, t: RiskType, r: Risk) {
    r.riskType == RiskTitle(t.name) && FirstFound(search, text, PatternList(t.patterns)) == Some(r.pattern)
  }

  /** Going one risk type further appends that type's entry. */
  lemma SeverityRisksStep(search: (string, string) -> bool, text: string, types: seq<RiskType>, i: nat)
    requires i < |types|
    ensures SeverityRisks(search, text, types[..i + 1]) == SeverityRisks(search, text, types[..i]) + RiskEntry(search, text, types[i])
  {
    var f := EntryFn(search, text);
    var prefix := types[..i + 1];
    assert prefix[..i] == types[..i];
    assert ConcatMap(prefix, f) == ConcatMap(types[..i], f) + f(types[i]);
  }

  /**
   * Every recorded risk is the entry of a risk type of its severity, comes
   * from a pattern whose own text occurs in the lower-cased contract, and
   * has a context of at most 200 characters.
   */
  lemma SeverityRisksSound(search: (string, string) -> bool, text: string, types: seq<RiskType>)
    ensures forall r :: r in SeverityRisks(search, text, types) ==>
              && (exists t :: t in types && EntryOf(search, text, t, r))
              && Contains(Lower(text), Lower(r.pattern))
              && |r.context| <= 200
  {
    var f := EntryFn(search, text);
    ConcatMapFrom(types, f);
    forall r | r in SeverityRisks(search, text, types)
      ensures (exists t :: t in types && EntryOf(search, text, t, r))
      ensures Contains(Lower(text), Lower(r.pattern)) && |r.context| <= 200
    {
      var k :| 0 <= k < |types| && r in f(types[k]);
      assert f(types[k]) == RiskEntry(search, text, types[k]);
      EntrySound(search, text, types[k], r);
      assert types[k] in types;
    }
  }

  /** The entry of one risk type is titled after it, for its first found pattern. */
  lemma EntrySound(search: (string, string) -> bool, text: string, rt: RiskType, r: Risk)
    requires r in RiskEntry(search, text, rt)
    ensures EntryOf(search, text, rt, r)
    ensures Contains(Lower(text), Lower(r.pattern)) && |r.context| <= 200
  {
    assert r == RiskEntry(search, text, rt)[0];
  }

  /** Every recorded risk type of the severity has its entry in the list. */
  lemma SeverityRisksComplete(search: (string, string) -> bool, text: string, types: seq<RiskType>)
    ensures forall k :: 0 <= k < |types| && Recorded(search, text, types[k]) ==>
              exists r :: r in SeverityRisks(search, text, types) && EntryOf(search, text, types[k], r)
  {
    var f := EntryFn(search, text);
    forall k | 0 <= k < |types| && Recorded(search, text, types[k])
      ensures exists r :: r in SeverityRisks(search, text, types) && EntryOf(search, text, types[k], r)
    {
      var e := RiskEntry(search, text, types[k]);
      ConcatMapHas(types, f, k);
      assert e[0] in f(types[k]) && EntryOf(search, text, types[k], e[0]);
    }
  }

  /** The positions of the recorded risk types. */
  function RecordedAt(search: (string, string) -> bool, text: string, types: seq<RiskType>): set<int> {
    set k | 0 <= k < |types| && Recorded(search, text, types[k])
  }

  /** One entry per recorded risk type: the list is exactly as long as there are recorded types. */
  lemma SeverityRisksCount(search: (string, string) -> bool, text: string, types: seq<RiskType>)
    ensures |SeverityRisks(search, text, types)| == |RecordedAt(search, text, types)|
  {
    var f := EntryFn(search, text);
    assert forall k :: 0 <= k < |types| ==> |f(types[k])| <= 1;
    ConcatMapCount(types, f);
    forall k | 0 <= k < |types| ensures f(types[k]) != [] <==> Recorded(search, text, types[k]) {
      EntryLength(search, text, types[k]);
    }
    assert NonEmptyAt(types, f) == RecordedAt(search, text, types);
  }

  /** A risk type contributes one entry when it is recorded, none otherwise. */
  lemma EntryLength(search: (string, string) -> bool, text: string, rt: RiskType)
    ensures |RiskEntry(search, text, rt)| == if Recorded(search, text, rt) then 1 else 0
  {
  }

  // ---------------------------------------------------------------- lists of lists

  /** The lists `f(x)` of the entries `x` of `xs`, concatenated in order. */
  function ConcatMap<A, B>(xs: seq<A>, f: A -> seq<B>): seq<B>
    decreases |xs|
  {
    if xs == [] then [] else ConcatMap(xs[..|xs| - 1], f) + f(xs[|xs| - 1])
  }

  lemma {:induction false} ConcatMapBound<A, B>(xs: seq<A>, f: A -> seq<B>)
    requires forall k :: 0 <= k < |xs| ==> |f(xs[k])| <= 1
    ensures |ConcatMap(xs, f)| <= |xs|
    decreases |xs|
  {
    if xs != [] {
      var init := xs[..|xs| - 1];
      assert forall k :: 0 <= k < |init| ==> init[k] == xs[k];
      ConcatMapBound(init, f);
    }
  }

  /** Every element of a contributed list is in the concatenation. */
  lemma {:induction false} ConcatMapHas<A, B>(xs: seq<A>, f: A -> seq<B>, k: nat)
    requires k < |xs|
    ensures forall r :: r in f(xs[k]) ==> r in ConcatMap(xs, f)
    decreases |xs|
  {
    var n := |xs| - 1;
    if k < n {
      var init := xs[..n];
      assert init[k] == xs[k];
      ConcatMapHas(init, f, k);
    }
  }

  /** Every element of the concatenation comes from some contributed list. */
  lemma {:induction false} ConcatMapFrom<A, B>(xs: seq<A>, f: A -> seq<B>)
    ensures forall r :: r in ConcatMap(xs, f) ==> exists k :: 0 <= k < |xs| && r in f(xs[k])
    decreases |xs|
  {
    if xs != [] {
      var n := |xs| - 1;
      var init := xs[..n];
      ConcatMapFrom(init, f);
      forall r | r in ConcatMap(xs, f) ensures exists k :: 0 <= k < |xs| && r in f(xs[k]) {
        if r in ConcatMap(init, f) {
          var k :| 0 <= k < |init| && r in f(init[k]);
          assert init[k] == xs[k];
        } else {
          assert r in f(xs[n]);
        }
      }
    }
  }

  /** The positions whose contributed list is not empty. */
  function NonEmptyAt<A, B>(xs: seq<A>, f: A -> seq<B>): set<int> {
    set k | 0 <= k < |xs| && f(xs[k]) != []
  }

  /** When each list has at most one element, the concatenation has one per non-empty list. */
  lemma {:induction false} ConcatMapCount<A, B>(xs: seq<A>, f: A -> seq<B>)
    requires forall k :: 0 <= k < |xs| ==> |f(xs[k])| <= 1
    ensures |ConcatMap(xs, f)| == |NonEmptyAt(xs, f)|
    decreases |xs|
  {
    if xs != [] {
      var n := |xs| - 1;
      var init := xs[..n];
      assert forall k :: 0 <= k < |init| ==> init[k] == xs[k];
      ConcatMapCount(init, f);
      NonEmptyAtSnoc(xs, f);
      assert n !in NonEmptyAt(init, f);
    }
  }

  /** Going one entry further adds its position when its list is not empty. */
  lemma NonEmptyAtSnoc<A, B>(xs: seq<A>, f: A -> seq<B>)
    requires xs != []
    ensures NonEmptyAt(xs, f) == NonEmptyAt(xs[..|xs| - 1], f) + (if f(xs[|xs| - 1]) != [] then {|xs| - 1} else {})
  {
    var n := |xs| - 1;
    var init := xs[..n];
    var extra: set<int> := if f(xs[n]) != [] then {n} else {};
    forall k | k in NonEmptyAt(xs, f) ensures k in NonEmptyAt(init, f) + extra {
      if k < n { assert init[k] == xs[k]; }
    }
    forall k | k in NonEmptyAt(init, f) + extra ensures k in NonEmptyAt(xs, f) {
      if k < n { assert init[k] == xs[k]; }
    }
  }

  // ---------------------------------------------------------------- extract_key_terms

  /** One item of `re.findall`: a string, or the tuple of a pattern's groups. */
  datatype FoundItem = Str(s: string) | Groups(groups: seq<string>)

  /** The stripped, non-empty groups of a tuple. */
  function NonEmptyStripped(groups: seq<string>): (r: seq<string>)
    ensures |r| <= |groups|
    ensures forall x :: x in r ==> x != [] && exists g :: g in groups && x == Strip(g)
    ensures forall g :: g in groups && Strip(g) != [] ==> Strip(g) in r
    decreases |groups|
  {
    if groups == [] then []
    else
      var init := groups[..|groups| - 1];
      var g := groups[|groups| - 1];
      NonEmptyStripped(init) + (if Strip(g) != [] then [Strip(g)] else [])
  }

  /** What one `findall` item adds to the matches. */
  function ItemMatches(item: FoundItem): seq<string> {
    match item
    case Str(s) => [Strip(s)]
    case Groups(gs) => NonEmptyStripped(gs)
  }

  /** The flattened matches of one `findall` result, in order. */
  function Flattened(items: seq<FoundItem>): seq<string>
    decreases |items|
  {
    if items == [] then []
    else Flattened(items[..|items| - 1]) + ItemMatches(items[|items| - 1])
  }

  /** All flattened matches of a term's patterns, pattern by pattern. */
  function TermMatches(findAll: (string, string) -> seq<FoundItem>, text: string, patterns: seq<string>): seq<string>
    decreases |patterns|
  {
    if patterns == [] then []
    else TermMatches(findAll, text, patterns[..|patterns| - 1]) + Flattened(findAll(patterns[|patterns| - 1], text))
  }

  predicate Distinct(s: seq<string>) {
    forall i, j :: 0 <= i < j < |s| ==> s[i] != s[j]
  }

  /**
   * `list(set(matches))[:5]`: up to five distinct matches, all of them
   * when there are fewer than five distinct ones. Which five is left to
   * the set's iteration order.
   */
  method FirstFiveDistinct(matches: seq<string>) returns (picked: seq<string>)
    ensures |picked| <= 5 && Distinct(picked)
    ensures forall x :: x in picked ==> x in matches
    ensures |picked| < 5 ==> forall x :: x in matches ==> x in picked
  {
    picked := [];
    var pending := set x | x in matches;
    while |picked| < 5 && pending != {}
      invariant |picked| <= 5 && Distinct(picked)
      invariant forall x :: x in picked ==> x in matches && x !in pending
      invariant forall x :: x in matches ==> x in picked || x in pending
      invariant forall x :: x in pending ==> x in matches
      decreases pending
    {
      var x :| x in pending;
      picked := picked + [x];
      pending := pending - {x};
    }
  }

  /**
   * `extract_key_terms`: one entry per key term, in table order, each
   * holding at most five distinct values drawn from that term's matches.
   */
  method ExtractKeyTerms(findAll: (string, string) -> seq<FoundItem>, text: string)
    returns (results: seq<(string, seq<string>)>)
    ensures |results| == |KEY_TERMS|
    ensures forall i :: 0 <= i < |KEY_TERMS| ==> TermEntry(findAll, text, KEY_TERMS[i], results[i])
  {
    results := ExtractTerms(findAll, text, KEY_TERMS);
  }

  /** The loop of `extract_key_terms` over a table of key terms: one entry per term, in order. */
  method ExtractTerms(findAll: (string, string) -> seq<FoundItem>, text: string, table: seq<KeyTerm>)
    returns (results: seq<(string, seq<string>)>)
    ensures |results| == |table|
    ensures forall i :: 0 <= i < |table| ==> TermEntry(findAll, text, table[i], results[i])
  {
    results := [];
    for i := 0 to |table|
      invariant |results| == i
      invariant forall k :: 0 <= k < i ==> TermEntry(findAll, text, table[k], results[k])
    {
      var matches := GatherMatches(findAll, text, table[i].patterns);
      var picked := FirstFiveDistinct(matches);
      results := results + [(table[i].term, picked)];
    }
  }

  /**
   * The entry of one key term: its name, and at most five distinct values
   * drawn from its matches, all of them when there are fewer than five.
   */
  predicate TermEntry(findAll: (string, string) -> seq<FoundItem>, text: string, kt: KeyTerm,
                      entry: (string, seq<string>))
  {
    && entry.0 == kt.term
    && |entry.1| <= 5 && Distinct(entry.1)
    && (forall x :: x in entry.1 ==> x in TermMatches(findAll, text, kt.patterns))
    && (|entry.1| < 5 ==> forall x :: x in TermMatches(findAll, text, kt.patterns) ==> x in entry.1)
  }

  /** The pattern and item loops of `extract_key_terms` for one term. */
  method GatherMatches(findAll: (string, string) -> seq<FoundItem>, text: string, patterns: seq<string>)
    returns (matches: seq<string>)
    ensures matches == TermMatches(findAll, text, patterns)
  {
    matches := [];
    for j := 0 to |patterns|
      invariant matches == TermMatches(findAll, text, patterns[..j])
    {
      assert patterns[..j + 1][..j] == patterns[..j];
      var found := findAll(patterns[j], text);
      matches := AppendFlattened(matches, found);
    }
    assert patterns[..|patterns|] == patterns;
  }

  /** The item loop of `extract_key_terms`: tuples give their non-empty stripped groups, strings themselves stripped. */
  method AppendFlattened(matches: seq<string>, found: seq<FoundItem>) returns (r: seq<string>)
    ensures r == matches + Flattened(found)
  {
    r := matches;
    for k := 0 to |found|
      invariant r == matches + Flattened(found[..k])
    {
      var more := ItemMatches(found[k]);
      AppendStep(matches, found, k, r, more);
      r := r + more;
    }
    assert found[..|found|] == found;
  }

  lemma AppendStep(matches: seq<string>, found: seq<FoundItem>, k: nat, r: seq<string>, more: seq<string>)
    requires k < |found| && r == matches + Flattened(found[..k]) && more == ItemMatches(found[k])
    ensures r + more == matches + Flattened(found[..k + 1])
  {
    assert found[..k + 1][..k] == found[..k];
    assert Flattened(found[..k + 1]) == Flattened(found[..k]) + more;
    ConcatAssoc(matches, Flattened(found[..k]), more);
  }

  lemma ConcatAssoc<T>(a: seq<T>, b: seq<T>, c: seq<T>)
    ensures (a + b) + c == a + (b + c)
  {
  }

  // ---------------------------------------------------------------- generate_report totals and next steps

  /** `sum(len(r) for r in risks.values())` */
  function TotalRisks(risks: Risks): nat {
    |risks.high| + |risks.medium| + |risks.low|
  }

  /** The executive summary counts. */
  datatype Summary = Summary(totalRisks: nat, high: nat, medium: nat, low: nat, missingProvisions: nat)

  /** `not any(risks.values())`: the report says "No significant risks identified." */
  predicate NoSignificantRisks(risks: Risks) {
    risks.high == [] && risks.medium == [] && risks.low == []
  }

  function ExecutiveSummary(risks: Risks, missing: seq<string>): (s: Summary)
    ensures s.high == |risks.high| && s.medium == |risks.medium| && s.low == |risks.low|
    ensures s.totalRisks == s.high + s.medium + s.low
    ensures s.totalRisks == 0 <==> NoSignificantRisks(risks)
    ensures s.missingProvisions == |missing|
  {
    Summary(TotalRisks(risks), |risks.high|, |risks.medium|, |risks.low|, |missing|)
  }

  /** The found risks of one contract number at most nine: four high, four medium, one low. */
  lemma RiskTotalBound(search: (string, string) -> bool, text: string)
    ensures TotalRisks(Risks(SeverityRisks(search, text, HIGH_RISKS), SeverityRisks(search, text, MEDIUM_RISKS),
                             SeverityRisks(search, text, LOW_RISKS))) <= 9
  {
  }

  datatype NextSteps = DoNotSign | NegotiateMedium | GeneralReview

  /**
   * The "Next Steps" advice: do not sign while there are high risks;
   * otherwise negotiate the medium ones; otherwise the general review.
   */
  function NextStepsFor(risks: Risks): (n: NextSteps)
    ensures n == DoNotSign <==> risks.high != []
    ensures n == NegotiateMedium <==> risks.high == [] && risks.medium != []
    ensures n == GeneralReview <==> risks.high == [] && risks.medium == []
  {
    if risks.high != [] then DoNotSign
    else if risks.medium != [] then NegotiateMedium
    else GeneralReview
  }

  /** The three numbered lines of each advice. */
  function NextStepLines(n: NextSteps): seq<string> {
    match n
    case DoNotSign => [
      "1. **Do not sign** until high-risk issues are addressed",
      "2. Request redlines addressing the high-risk items",
      "3. Consult with legal counsel on negotiation strategy"]
    case NegotiateMedium => [
      "1. Consider negotiating medium-risk items",
      "2. Document risk acceptance if proceeding without changes",
      "3. Ensure business stakeholders understand the risks"]
    case GeneralReview => [
      "1. Review the contract in detail for any issues not caught by automation",
      "2. Verify all business terms match your understanding",
      "3. Consider having legal counsel do a final review"]
  }

  /** A report that found no significant risk advises the general review. */
  lemma NoRisksGeneralReview(risks: Risks, missing: seq<string>)
    requires ExecutiveSummary(risks, missing).totalRisks == 0
    ensures NoSignificantRisks(risks)
    ensures NextStepsFor(risks) == GeneralReview
  {
  }

  /**
   * The "Key Terms" section: the terms that found some value, in order,
   * each with its values; terms with no value are not shown.
   */
  function ShownKeyTerms(terms: seq<(string, seq<string>)>): (shown: seq<(string, seq<string>)>)
    ensures |shown| <= |terms|
    ensures forall t :: t in shown ==> t in terms && t.1 != []
    ensures forall t :: t in terms && t.1 != [] ==> t in shown
    decreases |terms|
  {
    if terms == [] then []
    else
      var init := terms[..|terms| - 1];
      var last := terms[|terms| - 1];
      assert forall t :: t in terms ==> t in init || t == last;
      ShownKeyTerms(init) + (if last.1 != [] then [last] else [])
  }
}
