/**
 * Capability detection for the legal skill factory: a request is
 * normalised, split into (domain, action, subject, jurisdiction), turned
 * into a suggested skill name, and matched against the registry and the
 * curated skill directories. The keyword sets are Python sets, so which
 * keyword wins when several occur is left open here: the model only says
 * that the one chosen occurs.
 */
module DetectCapability {
  import opened Wrappers
  import opened Text
  import Sorting
  import SkillRegistry

  type Components = SkillRegistry.Components

  /** Supported legal domains. */
  const DOMAINS: set<string> := {
    "contract", "compliance", "litigation", "ip", "intellectual property",
    "corporate", "regulatory", "employment", "real estate", "tax"
  }

  /** Supported actions. */
  const ACTIONS: set<string> := {
    "review", "draft", "redline", "analyze", "compare", "summarize",
    "check", "validate", "generate", "extract", "create", "audit"
  }

  /** Common legal subjects. */
  const SUBJECTS: set<string> := {
    "nda", "non-disclosure", "confidentiality", "msa", "master service agreement",
    "sow", "statement of work", "employment agreement", "contractor agreement",
    "license", "licensing", "partnership", "joint venture", "merger",
    "acquisition", "lease", "terms of service", "tos", "privacy policy",
    "sla", "service level agreement", "vendor agreement",
    "gdpr", "ccpa", "hipaa", "sox", "sarbanes-oxley", "pci-dss", "pci",
    "ferpa", "coppa", "glba", "fcra", "tcpa", "cpa", "data protection",
    "patent", "trademark", "copyright", "trade secret", "ip portfolio",
    "articles of incorporation", "bylaws", "shareholder agreement",
    "stock option", "equity", "board resolution"
  }

  /** Jurisdiction codes and names. */
  const JURISDICTIONS: set<string> := {
    "us", "usa", "united states", "eu", "european union", "uk", "united kingdom",
    "ca", "canada", "au", "australia", "de", "germany", "fr", "france",
    "jp", "japan", "cn", "china", "in", "india", "sg", "singapore"
  }

  // ---------------------------------------------------------------- normalize_text

  /** Every run of white space is one plain space. */
  predicate SingleSpaced(t: string) {
    && (forall i :: 0 <= i < |t| && IsSpace(t[i]) ==> t[i] == ' ')
    && (forall i :: 0 <= i < |t| - 1 ==> NotTwoSpaces(t, i))
  }

  /** Positions `i` and `i + 1` are not both white space. */
  predicate NotTwoSpaces(t: string, i: int)
    requires 0 <= i < |t| - 1
  {
    !(IsSpace(t[i]) && IsSpace(t[i + 1]))
  }

  /** Putting one character in front keeps a text single-spaced when it is not a second space. */
  lemma ConsSingleSpaced(c: char, tail: string)
    requires SingleSpaced(tail)
    requires IsSpace(c) ==> c == ' ' && (tail == [] || !IsSpace(tail[0]))
    ensures SingleSpaced([c] + tail)
  {
    var t := [c] + tail;
    forall i | 0 <= i < |t| && IsSpace(t[i]) ensures t[i] == ' ' {
      if i > 0 { assert t[i] == tail[i - 1]; }
    }
    forall i | 0 <= i < |t| - 1 ensures NotTwoSpaces(t, i) {
      if i > 0 { assert NotTwoSpaces(tail, i - 1); assert t[i] == tail[i - 1] && t[i + 1] == tail[i]; }
    }
  }

  /** Lower-case, no white space at either end, single spaces inside. */
  predicate Normalized(t: string) {
    && NoUpper(t)
    && (t == [] || (!IsSpace(t[0]) && !IsSpace(t[|t| - 1])))
    && SingleSpaced(t)
  }

  /** `re.sub(r'\s+', ' ', s)`: each maximal run of white space becomes one space. */
  function Collapse(s: string): (r: string)
    ensures |r| <= |s|
    decreases |s|
  {
    if s == [] then
      []
    else if IsSpace(s[0]) then
      var rest := StripLeft(s);
      assert |rest| < |s|;
      [' '] + Collapse(rest)
    else
      [s[0]] + Collapse(s[1..])
  }

  /** What collapsing promises: single spaces only, emptiness and white-space ends kept, no capitals added. */
  predicate CollapsedFrom(s: string, r: string) {
    && SingleSpaced(r)
    && (r == [] <==> s == [])
    && (r != [] ==> (IsSpace(r[0]) <==> IsSpace(s[0])))
    && (r != [] ==> (IsSpace(r[|r| - 1]) <==> IsSpace(s[|s| - 1])))
    && (NoUpper(s) ==> NoUpper(r))
  }

  lemma {:induction false} CollapseShape(s: string)
    ensures CollapsedFrom(s, Collapse(s))
    decreases |s|
  {
    if s != [] {
      var r := Collapse(s);
      if IsSpace(s[0]) {
        var rest := StripLeft(s);
        CollapseShape(rest);
        var tail := Collapse(rest);
        ConsSingleSpaced(' ', tail);
        SuffixNoUpper(s, |s| - |rest|);
        assert r == [' '] + tail;
        if rest == [] {
          assert IsSpace(s[|s| - 1]);
        } else {
          assert rest[|rest| - 1] == s[|s| - 1];
        }
        ConsNoUpper(' ', tail);
      } else {
        var rest := s[1..];
        CollapseShape(rest);
        var tail := Collapse(rest);
        ConsSingleSpaced(s[0], tail);
        SuffixNoUpper(s, 1);
        assert r == [s[0]] + tail;
        if rest != [] {
          assert rest[|rest| - 1] == s[|s| - 1];
        }
        if NoUpper(s) {
          assert !IsUpper(s[0]);
          ConsNoUpper(s[0], tail);
        }
      }
    }
  }

  lemma SuffixNoUpper(s: string, k: nat)
    requires k <= |s|
    ensures NoUpper(s) ==> NoUpper(s[k..])
  {
    if NoUpper(s) {
      forall i | 0 <= i < |s| - k ensures !IsUpper(s[k..][i]) {
        assert s[k..][i] == s[k + i];
      }
    }
  }

  lemma ConsNoUpper(c: char, tail: string)
    requires !IsUpper(c)
    ensures NoUpper(tail) ==> NoUpper([c] + tail)
  {
    if NoUpper(tail) {
      forall i | 0 < i < |tail| + 1 ensures !IsUpper(([c] + tail)[i]) {
        assert ([c] + tail)[i] == tail[i - 1];
      }
    }
  }

  /** Stripping a lower-cased text leaves it lower-case. */
  lemma StripLowerHasNoUpper(s: string)
    ensures NoUpper(Strip(Lower(s)))
  {
    var lowered := Lower(s);
    var k := StripOffset(lowered);
    var n := |Strip(lowered)|;
    SliceHasNoUpper(lowered, k, k + n);
  }

  /** A slice of a text without upper-case letters has none either. */
  lemma SliceHasNoUpper(t: string, lo: nat, hi: nat)
    requires lo <= hi <= |t|
    requires forall i :: 0 <= i < |t| ==> !IsUpper(t[i])
    ensures forall i :: 0 <= i < hi - lo ==> !IsUpper(t[lo..hi][i])
  {
    forall i | 0 <= i < hi - lo ensures !IsUpper(t[lo..hi][i]) {
      assert t[lo..hi][i] == t[lo + i];
    }
  }

  /** `normalize_text`: lower-case, strip, collapse white space. */
  function NormalizeText(s: string): (r: string)
    ensures Normalized(r)
  {
    var t := Strip(Lower(s));
    StripLowerHasNoUpper(s);
    CollapseShape(t);
    CollapsedNormalized(t, Collapse(t));
    Collapse(t)
  }

  /** Collapsing a stripped lower-case text gives a normalised one. */
  lemma CollapsedNormalized(t: string, r: string)
    requires NoUpper(t) && (t == [] || (!IsSpace(t[0]) && !IsSpace(t[|t| - 1])))
    requires CollapsedFrom(t, r)
    ensures Normalized(r)
  {
  }

  lemma SingleSpacedTail(t: string)
    requires t != [] && SingleSpaced(t)
    ensures SingleSpaced(t[1..])
  {
    var tail := t[1..];
    forall i | 0 <= i < |tail| && IsSpace(tail[i]) ensures tail[i] == ' ' {
      assert tail[i] == t[i + 1];
    }
    forall i | 0 <= i < |tail| - 1 ensures NotTwoSpaces(tail, i) {
      assert NotTwoSpaces(t, i + 1);
      assert tail[i] == t[i + 1] && tail[i + 1] == t[i + 2];
    }
  }

  lemma {:induction false} CollapseFixpoint(t: string)
    requires SingleSpaced(t)
    ensures Collapse(t) == t
    decreases |t|
  {
    if t != [] {
      var tail := t[1..];
      assert t == [t[0]] + tail;
      SingleSpacedTail(t);
      CollapseFixpoint(tail);
      if IsSpace(t[0]) {
        assert t[0] == ' ';
        StripLeftAfterSpace(t);
      }
    }
  }

  lemma StripLeftAfterSpace(t: string)
    requires t != [] && IsSpace(t[0]) && SingleSpaced(t)
    ensures StripLeft(t) == t[1..]
  {
    if |t| > 1 { assert NotTwoSpaces(t, 0); }
    assert t[1..] == [] || !IsSpace(t[1..][0]);
    assert StripLeft(t[1..]) == t[1..];
  }

  /** A normalised text is its own normal form. */
  lemma NormalizedFixpoint(t: string)
    requires Normalized(t)
    ensures NormalizeText(t) == t
  {
    assert Lower(t) == t;
    assert StripLeft(t) == t;
    assert StripRight(t) == t;
    CollapseFixpoint(t);
  }

  /** Normalising twice is normalising once. */
  lemma NormalizeIdempotent(s: string)
    ensures NormalizeText(NormalizeText(s)) == NormalizeText(s)
  {
    NormalizedFixpoint(NormalizeText(s));
  }

  // ---------------------------------------------------------------- extract_components

  /** The ASCII characters of `\w`. */
  predicate IsWordChar(c: char) {
    IsLetter(c) || ('0' <= c <= '9') || c == '_'
  }

  /**
   * `re.search(r'\b' + re.escape(w) + r'\b', hay)` for a `w` that starts
   * and ends with a letter: `w` occurs with no word character right
   * before or right after it.
   */
  predicate WordAt(hay: string, w: string, i: int) {
    && OccursAt(hay, w, i)
    && (i == 0 || !IsWordChar(hay[i - 1]))
    && (i + |w| == |hay| || !IsWordChar(hay[i + |w|]))
  }

  predicate OccursAsWord(hay: string, w: string) {
    exists i :: 0 <= i <= |hay| && WordAt(hay, w, i)
  }

  /**
   * One `for x in candidates: if present(x): ... break` loop: some
   * candidate that is present, or none when no candidate is.
   */
  method FirstPresent(candidates: set<string>, present: string -> bool) returns (found: Option<string>)
    ensures found.Some? ==> found.value in candidates && present(found.value)
    ensures found.None? ==> forall x :: x in candidates ==> !present(x)
  {
    var pending := candidates;
    while pending != {}
      invariant pending <= candidates
      invariant forall x :: x in candidates - pending ==> !present(x)
      decreases pending
    {
      var x :| x in pending;
      if present(x) {
        return Some(x);
      }
      pending := pending - {x};
    }
    return None;
  }

  /**
   * The domain recorded for a matched domain keyword: both names of
   * intellectual property become "ip", and no other keyword is renamed.
   */
  function DomainName(dom: string): (r: string)
    ensures dom in DOMAINS ==> r in DOMAINS && r != "intellectual property"
    ensures r == "ip" <==> dom == "ip" || dom == "intellectual property"
    ensures r != dom ==> dom == "intellectual property"
  {
    if dom == "intellectual property" then "ip" else dom
  }

  predicate AnyIn(words: seq<string>, normalized: string) {
    exists w :: w in words && Contains(normalized, w)
  }

  /** The subject words that suggest each domain when no domain keyword occurs. */
  const CONTRACT_WORDS: seq<string> := ["nda", "msa", "sow", "agreement", "contract", "license"]
  const COMPLIANCE_WORDS: seq<string> := ["gdpr", "ccpa", "hipaa", "compliance", "regulation"]
  const IP_WORDS: seq<string> := ["patent", "trademark", "copyright"]

  /**
   * The domain guessed from subject words when no domain keyword occurs:
   * contract words win over compliance words, which win over ip words.
   */
  function InferDomain(normalized: string): (r: Option<string>)
    ensures r.Some? ==> r.value in DOMAINS && r.value != "intellectual property"
    ensures r == Some("contract") <==> AnyIn(CONTRACT_WORDS, normalized)
    ensures r == Some("compliance") <==> !AnyIn(CONTRACT_WORDS, normalized) && AnyIn(COMPLIANCE_WORDS, normalized)
    ensures r == Some("ip") <==>
              !AnyIn(CONTRACT_WORDS, normalized) && !AnyIn(COMPLIANCE_WORDS, normalized) && AnyIn(IP_WORDS, normalized)
    ensures r.None? <==>
              !AnyIn(CONTRACT_WORDS, normalized) && !AnyIn(COMPLIANCE_WORDS, normalized) && !AnyIn(IP_WORDS, normalized)
  {
    if AnyIn(CONTRACT_WORDS, normalized) then Some("contract")
    else if AnyIn(COMPLIANCE_WORDS, normalized) then Some("compliance")
    else if AnyIn(IP_WORDS, normalized) then Some("ip")
    else None
  }

  /** The subject recorded for a matched subject keyword: the usual short form, never a space. */
  function SubjectAlias(subj: string): (r: string)
    ensures ' ' !in r
    ensures |r| > 0 <==> |subj| > 0
  {
    if subj == "non-disclosure" || subj == "confidentiality" then "nda"
    else if subj == "master service agreement" then "msa"
    else if subj == "statement of work" then "sow"
    else if subj == "terms of service" then "tos"
    else if subj == "sarbanes-oxley" then "sox"
    else if subj == "pci-dss" || subj == "pci" then "pci"
    else ReplaceChar(subj, ' ', '-')
  }

  /** The jurisdiction recorded for a matched name: always one of the two-letter codes. */
  function JurisdictionCode(juris: string): (r: string)
    ensures juris in JURISDICTIONS ==> r in JURISDICTIONS && |r| == 2
  {
    if juris == "usa" || juris == "united states" then "us"
    else if juris == "european union" then "eu"
    else if juris == "united kingdom" then "uk"
    else if juris == "canada" then "ca"
    else if juris == "australia" then "au"
    else if juris == "germany" then "de"
    else if juris == "france" then "fr"
    else if juris == "japan" then "jp"
    else if juris == "china" then "cn"
    else if juris == "india" then "in"
    else if juris == "singapore" then "sg"
    else juris
  }

  /** What `extract_components` records as the action: some action that occurs, none when no action does. */
  predicate ActionFits(normalized: string, action: Option<string>) {
    && (action.Some? ==> action.value in ACTIONS && Contains(normalized, action.value))
    && (action.None? <==> forall a :: a in ACTIONS ==> !Contains(normalized, a))
  }

  /**
   * The domain: the name of some domain keyword that occurs, and when
   * none occurs the guess from subject words; never "intellectual property".
   */
  predicate DomainFits(normalized: string, domain: Option<string>) {
    && ((exists d :: d in DOMAINS && Contains(normalized, d)) ==>
          exists d :: d in DOMAINS && Contains(normalized, d) && domain == Some(DomainName(d)))
    && ((forall d :: d in DOMAINS ==> !Contains(normalized, d)) ==> domain == InferDomain(normalized))
    && (domain.Some? ==> domain.value in DOMAINS && domain.value != "intellectual property")
  }

  /** The subject: the short form of some subject that occurs, none when no subject does. */
  predicate SubjectFits(normalized: string, subject: Option<string>) {
    && (subject.Some? ==> exists s :: s in SUBJECTS && Contains(normalized, s) && subject.value == SubjectAlias(s))
    && (subject.None? <==> forall s :: s in SUBJECTS ==> !Contains(normalized, s))
  }

  /**
   * The jurisdiction: the two-letter code of some jurisdiction that occurs
   * as a whole word, none when none does.
   */
  predicate JurisdictionFits(normalized: string, jurisdiction: Option<string>) {
    && (jurisdiction.Some? ==>
          && (exists j :: j in JURISDICTIONS && OccursAsWord(normalized, j) && jurisdiction.value == JurisdictionCode(j))
          && |jurisdiction.value| == 2)
    && (jurisdiction.None? <==> forall j :: j in JURISDICTIONS ==> !OccursAsWord(normalized, j))
  }

  method ExtractAction(normalized: string) returns (action: Option<string>)
    ensures ActionFits(normalized, action)
  {
    action := FirstPresent(ACTIONS, x => Contains(normalized, x));
  }

  method ExtractDomain(normalized: string) returns (domain: Option<string>)
    ensures DomainFits(normalized, domain)
  {
    var dom := FirstPresent(DOMAINS, x => Contains(normalized, x));
    domain := if dom.Some? then Some(DomainName(dom.value)) else None;
    if !SkillRegistry.Given(domain) {
      domain := InferDomain(normalized);
    }
  }

  method ExtractSubject(normalized: string) returns (subject: Option<string>)
    ensures SubjectFits(normalized, subject)
  {
    var subj := FirstPresent(SUBJECTS, x => Contains(normalized, x));
    subject := if subj.Some? then Some(SubjectAlias(subj.value)) else None;
  }

  method ExtractJurisdiction(normalized: string) returns (jurisdiction: Option<string>)
    ensures JurisdictionFits(normalized, jurisdiction)
  {
    var juris := FirstPresent(JURISDICTIONS, x => OccursAsWord(normalized, x));
    jurisdiction := if juris.Some? then Some(JurisdictionCode(juris.value)) else None;
  }

  /** `extract_components`: each of the four components fits the normalised request. */
  method ExtractComponents(request: string) returns (c: Components)
    ensures ActionFits(NormalizeText(request), c.action)
    ensures DomainFits(NormalizeText(request), c.domain)
    ensures SubjectFits(NormalizeText(request), c.subject)
    ensures JurisdictionFits(NormalizeText(request), c.jurisdiction)
  {
    var normalized := NormalizeText(request);
    var action := ExtractAction(normalized);
    var domain := ExtractDomain(normalized);
    var subject := ExtractSubject(normalized);
    var jurisdiction := ExtractJurisdiction(normalized);
    c := SkillRegistry.Components(domain, action, subject, jurisdiction);
  }

  // ---------------------------------------------------------------- suggest_skill_name

  /** "legal", then the present action, subject and jurisdiction, in that order. */
  function NameParts(c: Components): (parts: seq<string>)
    ensures |parts| >= 1 && parts[0] == "legal"
  {
    ["legal"]
    + (if SkillRegistry.Given(c.action) then [c.action.value] else [])
    + (if SkillRegistry.Given(c.subject) then [c.subject.value] else [])
    + (if SkillRegistry.Given(c.jurisdiction) then [c.jurisdiction.value] else [])
  }

  /** No present component holds a dash. */
  predicate DashFree(c: Components) {
    && (c.action.Some? ==> '-' !in c.action.value)
    && (c.subject.Some? ==> '-' !in c.subject.value)
    && (c.jurisdiction.Some? ==> '-' !in c.jurisdiction.value)
  }

  /**
   * `suggest_skill_name`: the name parts joined by "-". Just "legal" when
   * no component is present; when no component holds a dash, splitting
   * the name on "-" gives the parts back; its first "-" part is always "legal".
   */
  function SuggestSkillName(c: Components): (name: string)
    ensures (!SkillRegistry.Given(c.action) && !SkillRegistry.Given(c.subject)
             && !SkillRegistry.Given(c.jurisdiction)) ==> name == "legal"
    ensures DashFree(c) ==> Split(name, '-') == NameParts(c)
    ensures IsLegalDir(name)
  {
    var parts := NameParts(c);
    assert '-' !in parts[0] by {
      assert '-' !in "legal";
    }
    SplitJoinHead(parts, '-');
    assert DashFree(c) ==> forall k :: 0 <= k < |parts| ==> '-' !in parts[k];
    if DashFree(c) then
      SplitJoin(parts, '-');
      Join(parts, '-')
    else
      Join(parts, '-')
  }

  // ---------------------------------------------------------------- find_existing_skills

  datatype Source = FromRegistry | FromCurated

  /** One existing skill found for a request. */
  datatype Found = Found(name: string, location: string, score: nat, source: Source)

  /** A curated directory name counts only when its first "-" part is "legal". */
  predicate IsLegalDir(dirName: string) {
    Split(dirName, '-')[0] == "legal"
  }

  function PartAt(parts: seq<string>, k: nat): Option<string> {
    if |parts| > k then Some(parts[k]) else None
  }

  /**
   * The score of a curated directory `legal-<action>-<subject>-<jurisdiction>`,
   * read by position: action 2, subject 3, jurisdiction 1, no domain.
   */
  function CuratedScore(c: Components, dirName: string): (score: nat)
    ensures score <= 6
  {
    var parts := Split(dirName, '-');
    SkillRegistry.Weight(c.action, PartAt(parts, 1), 2)
    + SkillRegistry.Weight(c.subject, PartAt(parts, 2), 3)
    + SkillRegistry.Weight(c.jurisdiction, PartAt(parts, 3), 1)
  }

  /**
   * A directory named after a request with action, subject and
   * jurisdiction, none holding a dash, is a full curated match for it.
   */
  lemma SuggestedNameFullMatch(c: Components)
    requires DashFree(c)
    requires SkillRegistry.Given(c.action) && SkillRegistry.Given(c.subject) && SkillRegistry.Given(c.jurisdiction)
    ensures IsLegalDir(SuggestSkillName(c))
    ensures CuratedScore(c, SuggestSkillName(c)) == 6
  {
    var parts := Split(SuggestSkillName(c), '-');
    assert parts == ["legal", c.action.value, c.subject.value, c.jurisdiction.value];
  }

  /** The registry entry for skill `n`, with its registry score. */
  function RegistryFound(c: Components, registry: map<string, SkillRegistry.SkillInfo>, n: string): Found
    requires n in registry
  {
    Found(n, registry[n].location, SkillRegistry.MatchScore(c, registry[n]), FromRegistry)
  }

  /** The curated entry for directory `d` under `curatedRoot`. */
  function CuratedFound(c: Components, curatedRoot: string, d: string): Found {
    Found(d, curatedRoot + "/" + d, CuratedScore(c, d), FromCurated)
  }

  predicate ScoreFirst(a: Found, b: Found) {
    a.score >= b.score
  }

  /**
   * `find_existing_skills`, with the registry and the curated directory
   * names given as values: each registry skill scoring at least 3 and
   * each "legal-" directory scoring at least 3 appears exactly once, and
   * nothing else does; highest score first.
   */
  method FindExistingSkills(c: Components, registry: map<string, SkillRegistry.SkillInfo>,
                            curatedRoot: string, curatedDirs: set<string>)
    returns (matches: seq<Found>)
    ensures forall f :: f in matches ==>
              && f.score >= 3
              && (f.source == FromRegistry ==> f.name in registry && f == RegistryFound(c, registry, f.name))
              && (f.source == FromCurated ==>
                    f.name in curatedDirs && IsLegalDir(f.name) && f == CuratedFound(c, curatedRoot, f.name))
    ensures forall n :: n in registry ==>
              multiset(matches)[RegistryFound(c, registry, n)]
                == if SkillRegistry.MatchScore(c, registry[n]) >= 3 then 1 else 0
    ensures forall d :: d in curatedDirs ==>
              multiset(matches)[CuratedFound(c, curatedRoot, d)]
                == if IsLegalDir(d) && CuratedScore(c, d) >= 3 then 1 else 0
    ensures Sorting.Sorted(matches, ScoreFirst)
  {
    var fromRegistry := RegistryMatches(c, registry);
    var fromCurated := CuratedMatches(c, curatedRoot, curatedDirs);
    var found := fromRegistry + fromCurated;
    matches := Sorting.Sort(found, ScoreFirst);
    forall f | f in matches ensures f in found {
      assert f in multiset(matches);
    }
    forall n | n in registry
      ensures multiset(matches)[RegistryFound(c, registry, n)]
                == if SkillRegistry.MatchScore(c, registry[n]) >= 3 then 1 else 0
    {
      assert RegistryFound(c, registry, n) !in fromCurated;
    }
    forall d | d in curatedDirs
      ensures multiset(matches)[CuratedFound(c, curatedRoot, d)]
                == if IsLegalDir(d) && CuratedScore(c, d) >= 3 then 1 else 0
    {
      assert CuratedFound(c, curatedRoot, d) !in fromRegistry;
    }
  }

  /** The registry half of the search: each registered skill scoring at least 3, once. */
  method RegistryMatches(c: Components, registry: map<string, SkillRegistry.SkillInfo>) returns (found: seq<Found>)
    ensures forall f :: f in found ==>
              f.score >= 3 && f.source == FromRegistry && f.name in registry && f == RegistryFound(c, registry, f.name)
    ensures forall n :: n in registry ==>
              multiset(found)[RegistryFound(c, registry, n)]
                == if SkillRegistry.MatchScore(c, registry[n]) >= 3 then 1 else 0
  {
    found := [];
    var pending := registry.Keys;
    while pending != {}
      invariant pending <= registry.Keys
      invariant forall f :: f in found ==>
                  f.score >= 3 && f.source == FromRegistry && f.name in registry.Keys - pending
                  && f == RegistryFound(c, registry, f.name)
      invariant forall n :: n in registry.Keys - pending ==>
                  multiset(found)[RegistryFound(c, registry, n)]
                    == if SkillRegistry.MatchScore(c, registry[n]) >= 3 then 1 else 0
      decreases pending
    {
      var name :| name in pending;
      var score := SkillRegistry.MatchScore(c, registry[name]);
      if score >= 3 {
        assert RegistryFound(c, registry, name) !in found;
        found := found + [Found(name, registry[name].location, score, FromRegistry)];
      }
      pending := pending - {name};
    }
  }

  /** The curated half of the search: each "legal-" directory scoring at least 3, once. */
  method CuratedMatches(c: Components, curatedRoot: string, curatedDirs: set<string>) returns (found: seq<Found>)
    ensures forall f :: f in found ==>
              && f.score >= 3 && f.source == FromCurated
              && f.name in curatedDirs && IsLegalDir(f.name) && f == CuratedFound(c, curatedRoot, f.name)
    ensures forall d :: d in curatedDirs ==>
              multiset(found)[CuratedFound(c, curatedRoot, d)]
                == if IsLegalDir(d) && CuratedScore(c, d) >= 3 then 1 else 0
  {
    found := [];
    var dirs := curatedDirs;
    while dirs != {}
      invariant dirs <= curatedDirs
      invariant forall f :: f in found ==>
                  && f.score >= 3 && f.source == FromCurated
                  && f.name in curatedDirs - dirs && IsLegalDir(f.name) && f == CuratedFound(c, curatedRoot, f.name)
      invariant forall d :: d in curatedDirs - dirs ==>
                  multiset(found)[CuratedFound(c, curatedRoot, d)]
                    == if IsLegalDir(d) && CuratedScore(c, d) >= 3 then 1 else 0
      decreases dirs
    {
      var d :| d in dirs;
      if IsLegalDir(d) {
        var score := CuratedScore(c, d);
        if score >= 3 {
          assert CuratedFound(c, curatedRoot, d) !in found;
          found := found + [CuratedFound(c, curatedRoot, d)];
        }
      }
      dirs := dirs - {d};
    }
  }
}
