/**
 * The compliance checker: each requirement of a regulation is a list of
 * patterns; a requirement is compliant when enough of its patterns occur
 * in the lower-cased documents, partial when some do, and non-compliant
 * when none do. The regular-expression engine is a parameter `search`
 * (`re.search(pattern, text, re.IGNORECASE)` as a yes/no answer).
 */
module ComplianceCheck {
  import opened Wrappers
  import opened Text

  datatype Status = Compliant | Partial | NonCompliant

  /** One entry of a requirement table: its key and its patterns. */
  datatype Requirement = Requirement(key: string, patterns: seq<string>)

  /** One entry of a regulation's results. */
  datatype RequirementResult = RequirementResult(
    key: string,
    status: Status,
    patternsMatched: nat,
    patternsTotal: nat,
    matches: seq<string>)

  /** The fraction of a requirement's patterns that must match for it to be compliant. */
  const COMPLIANCE_THRESHOLD: real := 0.7

  const GDPR_REQUIREMENTS: seq<Requirement> := [
    Requirement("lawful_basis", [
      @"lawful\s+basis", @"legal\s+basis", @"consent", @"contract", @"legitimate\s+interest"]),
    Requirement("data_subject_rights", [
      @"right\s+to\s+access", @"right\s+to\s+(?:rectification|correction)", @"right\s+to\s+erasure",
      @"right\s+to\s+(?:deletion|be\s+forgotten)", @"right\s+to\s+(?:portability|data\s+portability)",
      @"right\s+to\s+object", @"right\s+to\s+restrict\s+processing"]),
    Requirement("transparency", [
      @"data\s+protection\s+officer", @"dpo", @"privacy\s+(?:policy|notice)", @"contact.*privacy"]),
    Requirement("security", [
      @"appropriate.*(?:technical|organizational).*measures", @"security\s+measures", @"encryption",
      @"pseudonymization"]),
    Requirement("breach_notification", [
      @"data\s+breach", @"breach\s+notification", @"72\s+hours?", @"notify.*(?:authority|supervisory)"]),
    Requirement("data_minimization", [
      @"data\s+minimization", @"(?:collect|process).*(?:necessary|minimum)", @"purpose\s+limitation"]),
    Requirement("international_transfer", [
      @"international\s+transfer", @"cross-border\s+transfer", @"third\s+countr(?:y|ies)",
      @"adequacy\s+decision", @"standard\s+contractual\s+clauses"])
  ]

  const CCPA_REQUIREMENTS: seq<Requirement> := [
    Requirement("notice", [
      @"notice\s+at\s+collection", @"categories\s+of\s+personal\s+information",
      @"purposes?\s+(?:for|of)\s+(?:use|processing)"]),
    Requirement("consumer_rights", [
      @"right\s+to\s+know", @"right\s+to\s+delete", @"right\s+to\s+opt[- ]out", @"do\s+not\s+sell",
      @"right\s+to\s+non[- ]discrimination"]),
    Requirement("opt_out", [
      @"opt[- ]out", @"do\s+not\s+sell", @"sale\s+of\s+personal\s+information"]),
    Requirement("disclosures", [
      @"categories\s+of\s+(?:sources|recipients)", @"business\s+purpose", @"sell.*personal\s+information",
      @"share.*personal\s+information"]),
    Requirement("verification", [
      @"verif(?:y|ication)", @"authenticate", @"confirm\s+identity"])
  ]

  const HIPAA_REQUIREMENTS: seq<Requirement> := [
    Requirement("privacy_rule", [
      @"protected\s+health\s+information", @"phi", @"notice\s+of\s+privacy\s+practices",
      @"minimum\s+necessary", @"patient\s+rights?"]),
    Requirement("security_rule", [
      @"administrative\s+safeguards", @"physical\s+safeguards", @"technical\s+safeguards",
      @"access\s+control", @"audit\s+(?:controls|logs?|trails?)", @"integrity\s+controls",
      @"transmission\s+security"]),
    Requirement("breach_notification", [
      @"breach\s+notification", @"notify.*(?:individual|patient|secretary)", @"60\s+days?"]),
    Requirement("business_associates", [
      @"business\s+associate\s+agreement", @"baa", @"(?:vendor|third[- ]party).*agreement"]),
    Requirement("training", [
      @"(?:workforce|employee|staff)\s+training", @"hipaa\s+training", @"privacy.*training",
      @"security.*training"]),
    Requirement("policies", [
      @"privacy\s+polic(?:y|ies)", @"security\s+polic(?:y|ies)", @"procedure"])
  ]

  /** The regulations the checker supports. */
  const SUPPORTED: set<string> := {"gdpr", "ccpa", "hipaa"}

  // ---------------------------------------------------------------- check_requirement

  /**
   * The patterns that occur in `textLower`, in their order in `patterns`:
   * exactly those patterns, never more entries than patterns.
   */
  function MatchingPatterns(search: (string, string) -> bool, patterns: seq<string>, textLower: string): (m: seq<string>)
    ensures |m| <= |patterns|
    ensures forall p :: p in m ==> p in patterns && search(p, textLower)
    ensures forall p :: p in patterns && search(p, textLower) ==> p in m
    decreases |patterns|
  {
    if patterns == [] then
      []
    else
      var init := patterns[..|patterns| - 1];
      var last := patterns[|patterns| - 1];
      assert forall p :: p in patterns ==> p in init || p == last;
      MatchingPatterns(search, init, textLower) + (if search(last, textLower) then [last] else [])
  }

  /** The positions of `patterns` whose pattern occurs in `textLower`. */
  function FoundAt(search: (string, string) -> bool, patterns: seq<string>, textLower: string): set<int> {
    set i | 0 <= i < |patterns| && search(patterns[i], textLower)
  }

  /** The matches keep the order of `patterns`. */
  lemma {:induction false} MatchesInOrder(search: (string, string) -> bool, patterns: seq<string>, textLower: string)
    ensures Subsequence(MatchingPatterns(search, patterns, textLower), patterns)
    decreases |patterns|
  {
    if patterns != [] {
      var init := patterns[..|patterns| - 1];
      MatchesInOrder(search, init, textLower);
      var m := MatchingPatterns(search, patterns, textLower);
      var before := MatchingPatterns(search, init, textLower);
      if search(patterns[|patterns| - 1], textLower) {
        assert m == before + [patterns[|patterns| - 1]];
        assert m[..|m| - 1] == before;
      } else {
        assert m == before;
      }
    }
  }

  /** There is one match per position whose pattern occurs, so `len(matches)` counts the patterns found. */
  lemma {:induction false} MatchCount(search: (string, string) -> bool, patterns: seq<string>, textLower: string)
    ensures |MatchingPatterns(search, patterns, textLower)| == |FoundAt(search, patterns, textLower)|
    decreases |patterns|
  {
    if patterns != [] {
      var last := |patterns| - 1;
      var init := patterns[..last];
      MatchCount(search, init, textLower);
      FoundAtSnoc(search, patterns, textLower);
    }
  }

  /** Positions found in a list: those found before its last entry, and the last one when it is found. */
  lemma FoundAtSnoc(search: (string, string) -> bool, patterns: seq<string>, textLower: string)
    requires patterns != []
    ensures var last := |patterns| - 1;
            FoundAt(search, patterns, textLower)
            == FoundAt(search, patterns[..last], textLower) + (if search(patterns[last], textLower) then {last} else {})
    ensures |patterns| - 1 !in FoundAt(search, patterns[..|patterns| - 1], textLower)
  {
    var last := |patterns| - 1;
    var init := patterns[..last];
    var found := FoundAt(search, patterns, textLower);
    var before := FoundAt(search, init, textLower);
    var extra: set<int> := if search(patterns[last], textLower) then {last} else {};
    forall i | i in found ensures i in before + extra {
      if i < last { assert init[i] == patterns[i]; }
    }
    forall i | i in before + extra ensures i in found {
      if i < last { assert init[i] == patterns[i]; }
    }
  }

  /**
   * The three-way verdict: compliant when the matches reach `threshold`
   * of the patterns (inclusive), partial when some but too few match,
   * non-compliant when none match and that is below the threshold.
   */
  function Classify(matched: nat, total: nat, threshold: real): (s: Status)
    ensures s == Compliant <==> matched as real >= total as real * threshold
    ensures s == Partial <==> 0 < matched && (matched as real) < total as real * threshold
    ensures s == NonCompliant <==> matched == 0 && 0.0 < total as real * threshold
  {
    if matched as real >= total as real * threshold then Compliant
    else if matched > 0 then Partial
    else NonCompliant
  }

  /** With the default threshold, compliance is `10 * matched >= 7 * total`. */
  lemma DefaultThreshold(matched: nat, total: nat)
    ensures Classify(matched, total, COMPLIANCE_THRESHOLD) == Compliant <==> 10 * matched >= 7 * total
    ensures Classify(matched, total, COMPLIANCE_THRESHOLD) == NonCompliant <==> matched == 0 && total > 0
  {
    assert matched as real >= total as real * 0.7 <==> 10.0 * matched as real >= 7.0 * total as real;
  }

  /**
   * `check_requirement`: searches every pattern in the lower-cased text
   * and classifies the number found.
   */
  method CheckRequirement(search: (string, string) -> bool, text: string, patterns: seq<string>, threshold: real)
    returns (status: Status, matches: seq<string>)
    ensures matches == MatchingPatterns(search, patterns, Lower(text))
    ensures |matches| <= |patterns|
    ensures status == Classify(|matches|, |patterns|, threshold)
  {
    var textLower := Lower(text);
    matches := [];
    for i := 0 to |patterns|
      invariant matches == MatchingPatterns(search, patterns[..i], textLower)
    {
      assert patterns[..i + 1][..i] == patterns[..i];
      if search(patterns[i], textLower) {
        matches := matches + [patterns[i]];
      }
    }
    assert patterns[..|patterns|] == patterns;
    status := Classify(|matches|, |patterns|, threshold);
  }

  // ---------------------------------------------------------------- check_gdpr/ccpa/hipaa_compliance

  /** The result entry of one requirement under the default threshold. */
  function Evaluate(search: (string, string) -> bool, text: string, req: Requirement): (r: RequirementResult)
    ensures r.key == req.key && r.patternsTotal == |req.patterns|
    ensures r.patternsMatched == |r.matches| <= r.patternsTotal
    ensures r.status == Classify(r.patternsMatched, r.patternsTotal, COMPLIANCE_THRESHOLD)
  {
    var m := MatchingPatterns(search, req.patterns, Lower(text));
    RequirementResult(req.key, Classify(|m|, |req.patterns|, COMPLIANCE_THRESHOLD), |m|, |req.patterns|, m)
  }

  /** One result entry per requirement of the table, in table order. */
  method CheckRegulation(search: (string, string) -> bool, text: string, table: seq<Requirement>)
    returns (results: seq<RequirementResult>)
    ensures |results| == |table|
    ensures forall i :: 0 <= i < |table| ==> results[i] == Evaluate(search, text, table[i])
  {
    results := [];
    for i := 0 to |table|
      invariant |results| == i
      invariant forall k :: 0 <= k < i ==> results[k] == Evaluate(search, text, table[k])
    {
      var status, matches := CheckRequirement(search, text, table[i].patterns, COMPLIANCE_THRESHOLD);
      var entry := RequirementResult(table[i].key, status, |matches|, |table[i].patterns|, matches);
      assert entry == Evaluate(search, text, table[i]);
      results := results + [entry];
    }
  }

  /** `check_gdpr_compliance`: the seven GDPR requirements, in order. */
  method CheckGdprCompliance(search: (string, string) -> bool, text: string) returns (results: seq<RequirementResult>)
    ensures |results| == 7
    ensures forall i :: 0 <= i < 7 ==> results[i] == Evaluate(search, text, GDPR_REQUIREMENTS[i])
  {
    results := CheckRegulation(search, text, GDPR_REQUIREMENTS);
  }

  /** `check_ccpa_compliance`: the five CCPA requirements, in order. */
  method CheckCcpaCompliance(search: (string, string) -> bool, text: string) returns (results: seq<RequirementResult>)
    ensures |results| == 5
    ensures forall i :: 0 <= i < 5 ==> results[i] == Evaluate(search, text, CCPA_REQUIREMENTS[i])
  {
    results := CheckRegulation(search, text, CCPA_REQUIREMENTS);
  }

  /** `check_hipaa_compliance`: the six HIPAA requirements, in order. */
  method CheckHipaaCompliance(search: (string, string) -> bool, text: string) returns (results: seq<RequirementResult>)
    ensures |results| == 6
    ensures forall i :: 0 <= i < 6 ==> results[i] == Evaluate(search, text, HIPAA_REQUIREMENTS[i])
  {
    results := CheckRegulation(search, text, HIPAA_REQUIREMENTS);
  }

  /** The requirement keys of each table are distinct, so each regulation's results form a dictionary. */
  lemma TableKeysDistinct()
    ensures forall i, j :: 0 <= i < j < |GDPR_REQUIREMENTS| ==> GDPR_REQUIREMENTS[i].key != GDPR_REQUIREMENTS[j].key
    ensures forall i, j :: 0 <= i < j < |CCPA_REQUIREMENTS| ==> CCPA_REQUIREMENTS[i].key != CCPA_REQUIREMENTS[j].key
    ensures forall i, j :: 0 <= i < j < |HIPAA_REQUIREMENTS| ==> HIPAA_REQUIREMENTS[i].key != HIPAA_REQUIREMENTS[j].key
  {
  }

  // ---------------------------------------------------------------- calculate_compliance_score

  function CountStatus(results: seq<RequirementResult>, s: Status): (n: nat)
    ensures n <= |results|
  {
    if results == [] then 0
    else CountStatus(results[..|results| - 1], s) + (if results[|results| - 1].status == s then 1 else 0)
  }

  /** Every result has exactly one of the three statuses. */
  lemma {:induction false} StatusPartition(results: seq<RequirementResult>)
    ensures CountStatus(results, Compliant) + CountStatus(results, Partial) + CountStatus(results, NonCompliant)
            == |results|
  {
    if results != [] {
      StatusPartition(results[..|results| - 1]);
    }
  }

  lemma {:induction false} AllWithStatus(results: seq<RequirementResult>, s: Status)
    ensures CountStatus(results, s) == |results| <==> forall i :: 0 <= i < |results| ==> results[i].status == s
  {
    if results != [] {
      var init := results[..|results| - 1];
      AllWithStatus(init, s);
      assert forall i :: 0 <= i < |init| ==> init[i] == results[i];
    }
  }

  /**
   * `calculate_compliance_score`: 0 for no results, otherwise the
   * percentage of requirements met, a partial one counting half. It lies
   * between 0 and 100, is 100 exactly when every requirement is
   * compliant, and is 0 exactly when none is compliant or partial.
   */
  function CalculateComplianceScore(results: seq<RequirementResult>): (score: real)
    ensures 0.0 <= score <= 100.0
    ensures score == 100.0 <==> |results| > 0 && forall i :: 0 <= i < |results| ==> results[i].status == Compliant
    ensures score == 0.0 <==> CountStatus(results, Compliant) + CountStatus(results, Partial) == 0
  {
    if |results| == 0 then
      0.0
    else
      var total := |results| as real;
      var c := CountStatus(results, Compliant);
      var p := CountStatus(results, Partial);
      StatusPartition(results);
      AllWithStatus(results, Compliant);
      assert c as real + 0.5 * p as real <= total;
      assert c as real + 0.5 * p as real == total <==> c == |results|;
      ScaleBounds(c as real + 0.5 * p as real, total);
      ((c as real + 0.5 * p as real) / total) * 100.0
  }

  lemma ScaleBounds(x: real, total: real)
    requires 0.0 <= x <= total && total > 0.0
    ensures 0.0 <= (x / total) * 100.0 <= 100.0
    ensures (x / total) * 100.0 == 100.0 <==> x == total
    ensures (x / total) * 100.0 == 0.0 <==> x == 0.0
  {
    assert (x / total) * total == x;
  }

  /** The summary badge for a score: 80 and above, 60 and above, below 60. */
  function Badge(score: real): (b: string)
    ensures b == "\U{2705}" <==> score >= 80.0
    ensures b == "\U{274C}" <==> score < 60.0
    ensures b == "\U{26A0}\U{FE0F}" <==> 60.0 <= score < 80.0
  {
    if score >= 80.0 then "\U{2705}" else if score >= 60.0 then "\U{26A0}\U{FE0F}" else "\U{274C}"
  }

  /** A regulation whose every requirement is compliant gets the green badge. */
  lemma FullyCompliantBadge(results: seq<RequirementResult>)
    requires |results| > 0 && forall i :: 0 <= i < |results| ==> results[i].status == Compliant
    ensures Badge(CalculateComplianceScore(results)) == "\U{2705}"
  {
  }

  // ---------------------------------------------------------------- generate_report grouping

  /** The keys of the results with status `s`, in result order. */
  function KeysWith(results: seq<RequirementResult>, s: Status): (keys: seq<string>)
    ensures |keys| == CountStatus(results, s)
    ensures forall i :: 0 <= i < |results| && results[i].status == s ==> results[i].key in keys
    ensures forall k :: k in keys ==> exists i :: 0 <= i < |results| && results[i].status == s && results[i].key == k
  {
    if results == [] then []
    else
      var init := results[..|results| - 1];
      var last := results[|results| - 1];
      assert forall i :: 0 <= i < |init| ==> init[i] == results[i];
      KeysWith(init, s) + (if last.status == s then [last.key] else [])
  }

  predicate DistinctKeys(results: seq<RequirementResult>) {
    forall i, j :: 0 <= i < j < |results| ==> results[i].key != results[j].key
  }

  /**
   * With distinct keys, every requirement is listed in exactly one of the
   * compliant, partial and non-compliant sections, and the three sections
   * together have one line per requirement.
   */
  lemma SectionsPartition(results: seq<RequirementResult>)
    requires DistinctKeys(results)
    ensures forall i :: 0 <= i < |results| ==>
              && (results[i].key in KeysWith(results, Compliant) <==> results[i].status == Compliant)
              && (results[i].key in KeysWith(results, Partial) <==> results[i].status == Partial)
              && (results[i].key in KeysWith(results, NonCompliant) <==> results[i].status == NonCompliant)
    ensures |KeysWith(results, Compliant)| + |KeysWith(results, Partial)| + |KeysWith(results, NonCompliant)|
            == |results|
  {
    StatusPartition(results);
    forall i | 0 <= i < |results|
      ensures && (results[i].key in KeysWith(results, Compliant) <==> results[i].status == Compliant)
              && (results[i].key in KeysWith(results, Partial) <==> results[i].status == Partial)
              && (results[i].key in KeysWith(results, NonCompliant) <==> results[i].status == NonCompliant)
    {
      KeyInSection(results, i, Compliant);
      KeyInSection(results, i, Partial);
      KeyInSection(results, i, NonCompliant);
    }
  }

  /** With distinct keys, a requirement's key is in the section of its own status only. */
  lemma KeyInSection(results: seq<RequirementResult>, i: nat, s: Status)
    requires DistinctKeys(results) && i < |results|
    ensures results[i].key in KeysWith(results, s) <==> results[i].status == s
  {
    if results[i].key in KeysWith(results, s) {
      var j :| 0 <= j < |results| && results[j].status == s && results[j].key == results[i].key;
      assert j == i;
    }
  }

  /** A regulation gets a recommendations block when it has non-compliant or partial requirements. */
  predicate NeedsRecommendations(results: seq<RequirementResult>) {
    KeysWith(results, NonCompliant) != [] || KeysWith(results, Partial) != []
  }

  /** For a checked regulation, recommendations appear exactly when its score is below 100. */
  lemma RecommendationsIffBelowFull(results: seq<RequirementResult>)
    requires |results| > 0
    ensures NeedsRecommendations(results) <==> CalculateComplianceScore(results) < 100.0
  {
    StatusPartition(results);
    AllWithStatus(results, Compliant);
  }

  /** One regulation's detailed section: the requirement display names of each group. */
  datatype RegulationSection = RegulationSection(
    regulation: string,
    compliant: seq<string>,
    partial: seq<(string, nat, nat)>,
    nonCompliant: seq<string>)

  /** `req.replace("_", " ").title()` */
  function DisplayName(key: string): string {
    Title(ReplaceChar(key, '_', ' '))
  }

  /** The partial entries with their matched and total pattern counts, in result order. */
  function PartialLines(results: seq<RequirementResult>): (lines: seq<(string, nat, nat)>)
    ensures |lines| == CountStatus(results, Partial)
  {
    if results == [] then []
    else
      var last := results[|results| - 1];
      PartialLines(results[..|results| - 1])
      + (if last.status == Partial then [(DisplayName(last.key), last.patternsMatched, last.patternsTotal)] else [])
  }

  function DisplayNames(keys: seq<string>): (names: seq<string>)
    ensures |names| == |keys|
  {
    seq(|keys|, i requires 0 <= i < |keys| => DisplayName(keys[i]))
  }

  /**
   * The detailed section of a regulation, or none when it has no results.
   * Its three groups list as many lines as there are results.
   */
  function DetailSection(regulation: string, results: seq<RequirementResult>): (r: Option<RegulationSection>)
    ensures r.None? <==> results == []
    ensures r.Some? ==>
              |r.value.compliant| + |r.value.partial| + |r.value.nonCompliant| == |results|
  {
    if results == [] then None
    else
      StatusPartition(results);
      Some(RegulationSection(regulation,
        DisplayNames(KeysWith(results, Compliant)),
        PartialLines(results),
        DisplayNames(KeysWith(results, NonCompliant))))
  }

  // ---------------------------------------------------------------- main: regulations

  /** A regulation name as `main` compares it: lower-case, stripped, without a comma. */
  predicate CleanName(n: string) {
    && NoUpper(n)
    && (n == [] || (!IsSpace(n[0]) && !IsSpace(n[|n| - 1])))
    && ',' !in n
  }

  /**
   * `[r.strip().lower() for r in arg.split(",")]`: one name per comma-separated
   * part, so one more than there are commas, each of them clean.
   */
  function RegulationNames(arg: string): (names: seq<string>)
    ensures |names| == CountChar(arg, ',') + 1
    ensures forall i :: 0 <= i < |names| ==> CleanName(names[i])
  {
    var parts := Split(arg, ',');
    SplitCount(arg, ',');
    forall i | 0 <= i < |parts| ensures CleanName(Lower(Strip(parts[i]))) {
      CleanPart(parts[i]);
    }
    StrippedLower(parts)
  }

  /** Each part stripped and lower-cased. */
  function StrippedLower(parts: seq<string>): seq<string> {
    seq(|parts|, i requires 0 <= i < |parts| => Lower(Strip(parts[i])))
  }

  /** Clean names are left as they are. */
  lemma StrippedLowerClean(names: seq<string>)
    requires forall i :: 0 <= i < |names| ==> CleanName(names[i])
    ensures StrippedLower(names) == names
  {
    var r := StrippedLower(names);
    forall i | 0 <= i < |names| ensures r[i] == names[i] {
      CleanFixed(names[i]);
    }
  }

  lemma CleanFixed(n: string)
    requires CleanName(n)
    ensures Lower(Strip(n)) == n
  {
    StripIdentity(n);
    LowerIdentity(n);
  }

  /** Stripping and lower-casing a comma-free part gives a clean name. */
  lemma CleanPart(part: string)
    requires ',' !in part
    ensures CleanName(Lower(Strip(part)))
  {
    StripNoComma(part);
    LowerClean(Strip(part));
  }

  lemma StripNoComma(part: string)
    requires ',' !in part
    ensures ',' !in Strip(part)
  {
    var t := Strip(part);
    var k := StripOffset(part);
    forall j | 0 <= j < |t| ensures t[j] != ',' {
      assert t[j] == part[k + j];
    }
  }

  /** Lower-casing keeps a text comma-free and keeps its ends free of white space. */
  lemma LowerClean(t: string)
    requires ',' !in t
    requires t == [] || (!IsSpace(t[0]) && !IsSpace(t[|t| - 1]))
    ensures CleanName(Lower(t))
  {
    var n := Lower(t);
    forall j | 0 <= j < |n| ensures n[j] != ',' {
      assert n[j] == LowerChar(t[j]);
    }
    if t != [] {
      assert n[0] == LowerChar(t[0]);
      assert n[|n| - 1] == LowerChar(t[|t| - 1]);
    }
  }

  /** Joining clean names with commas and parsing the result gives the names back. */
  lemma RegulationNamesJoin(names: seq<string>)
    requires |names| >= 1
    requires forall i :: 0 <= i < |names| ==> CleanName(names[i])
    ensures RegulationNames(Join(names, ',')) == names
  {
    SplitJoin(names, ',');
    StrippedLowerClean(names);
  }

  /**
   * The validation loop of `main`: the first unsupported name, or none
   * when every name is supported.
   */
  method FirstUnsupported(regulations: seq<string>) returns (bad: Option<string>)
    ensures bad.None? <==> forall r :: r in regulations ==> r in SUPPORTED
    ensures bad.Some? ==>
              exists i :: 0 <= i < |regulations| && regulations[i] == bad.value && bad.value !in SUPPORTED
                          && forall j :: 0 <= j < i ==> regulations[j] in SUPPORTED
  {
    for i := 0 to |regulations|
      invariant forall j :: 0 <= j < i ==> regulations[j] in SUPPORTED
    {
      if regulations[i] !in SUPPORTED {
        return Some(regulations[i]);
      }
    }
    return None;
  }

  function Table(regulation: string): seq<Requirement> {
    if regulation == "gdpr" then GDPR_REQUIREMENTS
    else if regulation == "ccpa" then CCPA_REQUIREMENTS
    else HIPAA_REQUIREMENTS
  }

  /** `checked` holds one result per requirement of `table`, in table order. */
  predicate ResultsOf(search: (string, string) -> bool, text: string, table: seq<Requirement>, checked: seq<RequirementResult>) {
    |checked| == |table| && forall i :: 0 <= i < |table| ==> checked[i] == Evaluate(search, text, table[i])
  }

  /** The branch of the checking loop that runs the checker of one supported regulation. */
  method CheckRegulationNamed(search: (string, string) -> bool, text: string, regulation: string)
    returns (checked: seq<RequirementResult>)
    requires regulation in SUPPORTED
    ensures ResultsOf(search, text, Table(regulation), checked)
  {
    if regulation == "gdpr" {
      checked := CheckGdprCompliance(search, text);
    } else if regulation == "ccpa" {
      checked := CheckCcpaCompliance(search, text);
    } else {
      checked := CheckHipaaCompliance(search, text);
    }
  }

  /**
   * The checking loop of `main` over validated regulations: the results
   * and score of every regulation named.
   */
  method RunChecks(search: (string, string) -> bool, text: string, regulations: seq<string>)
    returns (results: map<string, seq<RequirementResult>>, scores: map<string, real>)
    requires forall r :: r in regulations ==> r in SUPPORTED
    ensures results.Keys == scores.Keys == set r | r in regulations
    ensures AllChecked(search, text, results, scores)
  {
    results := map[];
    scores := map[];
    for k := 0 to |regulations|
      invariant results.Keys == scores.Keys == set r | r in regulations[..k]
      invariant AllChecked(search, text, results, scores)
    {
      var regulation := regulations[k];
      var checked := CheckRegulationNamed(search, text, regulation);
      var score := CalculateComplianceScore(checked);
      CheckedStep(search, text, results, scores, regulation, checked, score);
      KeysStep(regulations, k, results.Keys);
      results := results[regulation := checked];
      scores := scores[regulation := score];
    }
    assert regulations[..|regulations|] == regulations;
  }

  /** Every regulation in `results` holds its table's results, and its score is theirs. */
  predicate AllChecked(search: (string, string) -> bool, text: string,
                       results: map<string, seq<RequirementResult>>, scores: map<string, real>)
  {
    forall r :: r in results ==>
      r in scores && ResultsOf(search, text, Table(r), results[r]) && scores[r] == CalculateComplianceScore(results[r])
  }

  /** Recording one more regulation's results and score keeps `AllChecked`. */
  lemma CheckedStep(search: (string, string) -> bool, text: string,
                    results: map<string, seq<RequirementResult>>, scores: map<string, real>,
                    regulation: string, checked: seq<RequirementResult>, score: real)
    requires AllChecked(search, text, results, scores)
    requires ResultsOf(search, text, Table(regulation), checked) && score == CalculateComplianceScore(checked)
    ensures AllChecked(search, text, results[regulation := checked], scores[regulation := score])
  {
    var results', scores' := results[regulation := checked], scores[regulation := score];
    forall r | r in results'
      ensures r in scores' && ResultsOf(search, text, Table(r), results'[r])
      ensures scores'[r] == CalculateComplianceScore(results'[r])
    {
      if r != regulation {
        assert r in results && results'[r] == results[r] && scores'[r] == scores[r];
      }
    }
  }

  /** The regulations seen after one more turn of the loop. */
  lemma KeysStep(regulations: seq<string>, k: nat, keys: set<string>)
    requires k < |regulations|
    requires keys == set r | r in regulations[..k]
    ensures var seen := regulations[..k + 1]; keys + {regulations[k]} == set r | r in seen
  {
    assert regulations[..k + 1] == regulations[..k] + [regulations[k]];
  }
}
