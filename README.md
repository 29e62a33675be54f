# Legal skills and reasoning bridge, modelled in Dafny

This project models the executable core of a collection of agent skills for
legal work:

- **Reasoning bridge pipeline** (`pipeline.dfy`, module `Pipeline`). Four
  agents turn a raw "haystack" into a cited narrative: the evidence manager,
  the context gardener, the structural drafter and the Socratic critic.
  - The Claim-Citation Coverage (CCC) metric is V / U. U is the number of
    factual claims; V is the number of those with a valid pinpoint.
  - The CCC metric is a hard gate: a pass's audit status is PASS exactly
    when the ratio reaches the configured threshold.
  - The audit loop revises the draft on a FAIL until a pass succeeds or
    `max_revision_cycles` passes are used.
  - The "spec-first" gate lets the builder run only on a specification
    whose SHA-256 digest is the approved one.
- **Legal skill registry** (`skill_registry.dfy`, module `SkillRegistry`).
  A class whose `skills` map is updated in place by register, use and
  remove. It also offers weighted search and sorted listing.
- **Capability detection** (`detect_capability.dfy`, module
  `DetectCapability`).
  - Request text is normalised.
  - Action, domain, subject and jurisdiction are extracted from the
    supported vocabularies, with aliases and two-letter jurisdiction codes.
  - Names follow `legal-<action>-<subject>-<jurisdiction>`.
  - Existing skills are found in the registry and the curated directory,
    with a score threshold of 3, sorted by score.
- **Compliance checker** (`compliance_check.dfy`, module `ComplianceCheck`).
  - The GDPR, CCPA and HIPAA requirement tables, with the 70 % pattern
    threshold per requirement.
  - A percentage score (a partial requirement counts half) and a badge.
  - The report sections group the requirements by status.
  - The regulation list from the command line is parsed and validated.
- **Contract review** (`extract_contract.dfy`, module `ContractReview`).
  - Missing standard provisions.
  - Risks by severity: at most one per risk type, with a context window
    of at most 200 characters.
  - Key terms: at most five distinct values per term.
  - The report's totals and its next-step advice.

Shared modules:

- `wrappers.dfy` holds `Option` and `Result`.
- `text.dfy` holds the Python string operations the core uses:
  - `lower`, `strip` and `replace`;
  - `in` and `find`;
  - `split` and `join`;
  - `title`;
  - string ordering.
- `sorting.dfy` is `list.sort`: an insertion sort by a total preorder,
  proved sorted and a permutation.

Parameters stand for what lies outside the model:

- The LLM agents, SHA-256 and JSON decoding are function-valued `const`
  fields of `Pipeline.ReasoningBridge`.
- The regex engine is a parameter: `search` for "`re.search`/`re.findall`
  found something" and `findAll` for the items `re.findall` returns. The
  exceptions are the whole-word jurisdiction match (`\b`, with ASCII `\w`)
  and the white-space `re.sub`, which are modelled directly.
- Timestamps are `now` parameters.
- The registry file and the curated directory listing are in-memory maps
  and sets.

Where the code and the pipeline's documented behaviour differ, the model
follows the code:

- The CCC ratio is 0.0 when there are no factual claims. The gate then
  fails under any positive threshold.
- There is no contradiction check and no ESCALATED state.
- The metric is written into the audit report only on a FAIL, because the
  PASS branch leaves the loop before `audit_report['ccc_metric'] = ...`.
- With `max_revision_cycles < 1` the loop never runs and `audit_report` is
  unbound when the result is built. The model returns
  `Err(AuditReportUnbound)` there.

## Model

| member | source | states |
|---|---|---|
| Pipeline.ValidAtMostFactual | skills/.experimental/gemini-reasoning-bridge/scripts/pipeline.py:85-90 | V never exceeds U, and V equals U exactly when every factual claim has a valid pinpoint |
| Pipeline.CalculateCccMetric | skills/.experimental/gemini-reasoning-bridge/scripts/pipeline.py:77-99 | U counts factual claims and V those with a valid pinpoint; V <= U; 0 <= ratio <= 1; ratio is 0.0 when U = 0; ratio is 1 exactly when U > 0 and all are cited; the threshold is the configured one or 0.95 |
| Pipeline.CccRatio | skills/.experimental/gemini-reasoning-bridge/scripts/pipeline.py:92-97 | with U > 0 the ratio times U is V, so the ratio is V / U |
| Pipeline.RatioBounds | skills/.experimental/gemini-reasoning-bridge/scripts/pipeline.py:92 | for 0 <= V <= U with U > 0, V / U lies in [0, 1], times U gives back V, and is 1 exactly when V = U |
| Pipeline.NoFactualClaimsFail | skills/.experimental/gemini-reasoning-bridge/scripts/pipeline.py:92-98 | a ledger with no factual claim never reaches a positive threshold |
| Pipeline.VerifySpecHash | skills/.experimental/gemini-reasoning-bridge/scripts/pipeline.py:214-218 | with an active spec hash, a hash is accepted iff it equals that hash (so the empty hash is rejected against a non-empty one); with the active spec or its hash missing only the empty string is accepted |
| Pipeline.ReasoningBridge.ParseEvidence | skills/.experimental/gemini-reasoning-bridge/scripts/pipeline.py:220-226 | decodable JSON gives the decoded list; anything else gives one item whose content is the raw text |
| Pipeline.ReasoningBridge.ParseDraft | skills/.experimental/gemini-reasoning-bridge/scripts/pipeline.py:228-238 | decodable JSON gives the decoded draft; anything else gives the raw text as narrative with no sentences and no claims |
| Pipeline.ReasoningBridge.ParseAuditReport | skills/.experimental/gemini-reasoning-bridge/scripts/pipeline.py:240-245 | decodable JSON gives the decoded report; anything else gives a FAIL report with the "Invalid audit report format" error |
| Pipeline.ReasoningBridge.UndecodableDraftScoresZero | skills/.experimental/gemini-reasoning-bridge/scripts/pipeline.py:228-238 | a draft that is not valid JSON has U = 0 and ratio 0.0 |
| Pipeline.ReasoningBridge.AuditPass | skills/.experimental/gemini-reasoning-bridge/scripts/pipeline.py:145-177 | one pass audits its draft; its status is PASS iff ratio >= threshold, whatever the critic said; the metric is attached on FAIL; a revision is requested iff the pass failed before the last cycle |
| Pipeline.ReasoningBridge.Cycles | skills/.experimental/gemini-reasoning-bridge/scripts/pipeline.py:144-177 | the loop runs between 1 and max_revision_cycles passes when max_revision_cycles >= 1, and none otherwise |
| Pipeline.ReasoningBridge.CyclesGate | skills/.experimental/gemini-reasoning-bridge/scripts/pipeline.py:152-163 | in every pass the metric is that of the pass's draft, the status is PASS iff ratio >= threshold, and a FAIL report carries the metric |
| Pipeline.ReasoningBridge.CyclesChain | skills/.experimental/gemini-reasoning-bridge/scripts/pipeline.py:144-176 | the first pass audits the initial draft; every pass but the last failed and its revision is the next pass's draft; the last pass revises nothing; a run ending in FAIL used every cycle |
| Pipeline.ReasoningBridge.RevisionsBound | skills/.experimental/gemini-reasoning-bridge/scripts/pipeline.py:165-173 | the drafter revises once per pass except the last, so at most max_revision_cycles - 1 times |
| Pipeline.ReasoningBridge.PassIffSomeCyclePassed | skills/.experimental/gemini-reasoning-bridge/scripts/pipeline.py:157-160 | the final status is PASS exactly when some pass reached the threshold |
| Pipeline.ReasoningBridge.AuditStep | skills/.experimental/gemini-reasoning-bridge/scripts/pipeline.py:145-177 | the loop body computes exactly `AuditPass`, and its status is PASS iff ratio >= threshold |
| Pipeline.ReasoningBridge.AuditLoop | skills/.experimental/gemini-reasoning-bridge/scripts/pipeline.py:142-177 | the passes the loop runs are exactly `Cycles` from the initial draft; no report iff max_revision_cycles < 1; otherwise the report and draft are the last pass's, with status PASS iff its ratio reached the threshold |
| Pipeline.ReasoningBridge.LoopStep | skills/.experimental/gemini-reasoning-bridge/scripts/pipeline.py:144-177 | one turn appends the pass to the trace; a PASS completes the run with that pass's report and draft, a FAIL leaves exactly the passes from its revision still to come |
| Pipeline.ReasoningBridge.LoopExit | skills/.experimental/gemini-reasoning-bridge/scripts/pipeline.py:144 | when `range(max_revisions)` runs out, the trace is the whole run and the report and draft are its last pass's |
| Pipeline.ReasoningBridge.LastPass | skills/.experimental/gemini-reasoning-bridge/scripts/pipeline.py:157-177 | the last pass of every run asks for no revision, and its status is PASS or FAIL, PASS iff its ratio reached the threshold |
| Pipeline.ReasoningBridge.ProcessHaystack | skills/.experimental/gemini-reasoning-bridge/scripts/pipeline.py:101-184 | stages 1-3 feed `Cycles`; the result is an error iff max_revision_cycles < 1; otherwise 1 to max_revision_cycles passes ran and the output holds the ranked evidence, the last draft, the last report and its status, which is PASS or FAIL and PASS iff the last ratio reached the threshold |
| Pipeline.ReasoningBridge.GenerateCode | skills/.experimental/gemini-reasoning-bridge/scripts/pipeline.py:186-212 | the builder's code is returned iff the spec's digest equals the expected hash; otherwise the spec-hash error |
| Pipeline.ReasoningBridge.EditedSpecRejected | skills/.experimental/gemini-reasoning-bridge/scripts/pipeline.py:197-204 | once a spec is accepted, any spec with a different digest is rejected |
| Pipeline.ReasoningBridge.MissingHashBlocks | skills/.experimental/gemini-reasoning-bridge/scripts/pipeline.py:214-218 | a ledger without an active spec hash rejects every spec whose digest is non-empty |
| SkillRegistry.MatchScore | skills/.system/legal-skill-factory/scripts/skill_registry.py:105-114 | the weighted score (2, 2, 3, 1) is at most 8 and positive exactly when some given criterion equals the stored one |
| SkillRegistry.NoCriteriaNoScore | skills/.system/legal-skill-factory/scripts/skill_registry.py:105-117 | a search with no criteria scores 0 against every skill |
| SkillRegistry.Registered | skills/.system/legal-skill-factory/scripts/skill_registry.py:77-88 | the record holds the given criteria and the location or "unknown"; a new skill starts with zero counts, no last use and creation time now; a re-registered skill keeps its counts, last use and non-empty creation time; updated_at is now |
| SkillRegistry.Used | skills/.system/legal-skill-factory/scripts/skill_registry.py:163-167 | one more use, one more success only on success, last use now, nothing else changed, and success_count <= usage_count is preserved |
| SkillRegistry.RanksBeforeIsPreorder | skills/.system/legal-skill-factory/scripts/skill_registry.py:125 | the (score, usage_count) descending order is total and transitive |
| SkillRegistry.ListOrderIsPreorder | skills/.system/legal-skill-factory/scripts/skill_registry.py:141-150 | the name, usage and recent orders are each total and transitive |
| SkillRegistry.Registry.constructor | skills/.system/legal-skill-factory/scripts/skill_registry.py:45-47 | a registry with no file starts empty and consistent |
| SkillRegistry.Registry.Register | skills/.system/legal-skill-factory/scripts/skill_registry.py:63-90 | the name maps to `Registered` of its previous record, no other skill changes, and success_count <= usage_count is kept |
| SkillRegistry.Registry.Use | skills/.system/legal-skill-factory/scripts/skill_registry.py:155-170 | an unknown name is an error and changes nothing; otherwise only that record becomes `Used`; consistency is kept |
| SkillRegistry.Registry.Remove | skills/.system/legal-skill-factory/scripts/skill_registry.py:173-183 | an unknown name is an error and changes nothing; otherwise exactly that key is deleted |
| SkillRegistry.Registry.Find | skills/.system/legal-skill-factory/scripts/skill_registry.py:94-127 | every skill with a positive score appears exactly once with its record and score, nothing else appears, sorted by score then usage count, highest first |
| SkillRegistry.Registry.List | skills/.system/legal-skill-factory/scripts/skill_registry.py:130-152 | every registered skill appears exactly once with its record, sorted by name, by usage descending or by last use descending |
| DetectCapability.CollapseShape | skills/.system/legal-skill-factory/scripts/detect_capability.py:66 | collapsing white-space runs to one space leaves single spaces only, keeps emptiness, whether the ends are white space, and the absence of capitals |
| DetectCapability.StripLowerHasNoUpper | skills/.system/legal-skill-factory/scripts/detect_capability.py:66 | a stripped lower-cased text has no capital letter |
| DetectCapability.NormalizeText | skills/.system/legal-skill-factory/scripts/detect_capability.py:64-66 | the result is lower-case, has no white space at either end, and its only white space is single spaces |
| DetectCapability.CollapseFixpoint | skills/.system/legal-skill-factory/scripts/detect_capability.py:66 | collapsing an already single-spaced text changes nothing |
| DetectCapability.NormalizedFixpoint | skills/.system/legal-skill-factory/scripts/detect_capability.py:64-66 | a normalised text is its own normalisation |
| DetectCapability.NormalizeIdempotent | skills/.system/legal-skill-factory/scripts/detect_capability.py:64-66 | normalising twice is normalising once |
| DetectCapability.FirstPresent | skills/.system/legal-skill-factory/scripts/detect_capability.py:80-83 | the loop over a vocabulary with `break` yields a member that is present, or none exactly when no member is present |
| DetectCapability.DomainName | skills/.system/legal-skill-factory/scripts/detect_capability.py:89-92 | the result is "ip" iff the keyword is "ip" or "intellectual property"; no other keyword is renamed; every domain maps to a domain other than "intellectual property" |
| DetectCapability.InferDomain | skills/.system/legal-skill-factory/scripts/detect_capability.py:96-102 | "contract" iff a contract word occurs; else "compliance" iff a compliance word occurs; else "ip" iff an ip word occurs; none iff no such word occurs; every result is a supported domain |
| DetectCapability.SubjectAlias | skills/.system/legal-skill-factory/scripts/detect_capability.py:109-122 | the normalised subject has no space, and it is non-empty iff the matched subject is |
| DetectCapability.JurisdictionCode | skills/.system/legal-skill-factory/scripts/detect_capability.py:131-154 | every supported jurisdiction maps to a supported two-letter code |
| DetectCapability.ExtractAction | skills/.system/legal-skill-factory/scripts/detect_capability.py:79-83 | the action is an action that occurs in the request, and none iff no action occurs |
| DetectCapability.ExtractDomain | skills/.system/legal-skill-factory/scripts/detect_capability.py:86-102 | an occurring domain gives its name; with none the keyword fallback applies; the result is always a supported domain |
| DetectCapability.ExtractSubject | skills/.system/legal-skill-factory/scripts/detect_capability.py:105-123 | the subject is the alias of an occurring subject, and none iff no subject occurs |
| DetectCapability.ExtractJurisdiction | skills/.system/legal-skill-factory/scripts/detect_capability.py:126-155 | the jurisdiction is the code of one that occurs as a whole word, and none iff none occurs as a whole word |
| DetectCapability.ExtractComponents | skills/.system/legal-skill-factory/scripts/detect_capability.py:69-162 | on the normalised request: the action is an occurring action or none iff none occurs; the domain is the name of an occurring domain keyword, else the keyword fallback; the subject is the alias of an occurring subject or none iff none occurs; the jurisdiction is the two-letter code of one occurring as a whole word or none iff none does |
| DetectCapability.NameParts | skills/.system/legal-skill-factory/scripts/detect_capability.py:170-179 | the name parts always start with "legal" |
| DetectCapability.SuggestSkillName | skills/.system/legal-skill-factory/scripts/detect_capability.py:165-181 | the name is "legal" when no component is given; when no component contains "-", splitting the name on "-" gives back exactly the parts; the name's first "-" part is always "legal" |
| DetectCapability.CuratedScore | skills/.system/legal-skill-factory/scripts/detect_capability.py:235-247 | the positional score of a curated directory is at most 6 |
| DetectCapability.SuggestedNameFullMatch | skills/.system/legal-skill-factory/scripts/detect_capability.py:235-247 | a suggested name with all three components is a legal directory that scores the full 6 against its own components |
| DetectCapability.FindExistingSkills | skills/.system/legal-skill-factory/scripts/detect_capability.py:184-260 | every registry skill and every "legal-" curated directory scoring at least 3 appears exactly once with its location and source, nothing else appears, sorted by score, highest first |
| DetectCapability.RegistryMatches | skills/.system/legal-skill-factory/scripts/detect_capability.py:201-218 | every registered skill scoring at least 3 is listed exactly once with its location, source "registry" and score; nothing else is |
| DetectCapability.CuratedMatches | skills/.system/legal-skill-factory/scripts/detect_capability.py:230-255 | every "legal-" directory scoring at least 3 is listed exactly once with its path, source "curated" and score; nothing else is |
| ComplianceCheck.MatchingPatterns | skills/.curated/legal/compliance-checker/scripts/compliance_check.py:180-185 | every match is a pattern found in the lower-cased text, every found pattern is a match, no more matches than patterns |
| ComplianceCheck.MatchesInOrder | skills/.curated/legal/compliance-checker/scripts/compliance_check.py:180-185 | the matches are a subsequence of the patterns: they keep the patterns' order |
| ComplianceCheck.MatchCount | skills/.curated/legal/compliance-checker/scripts/compliance_check.py:180-190 | the number of matches is the number of pattern positions found, so `patterns_matched` counts each found pattern once |
| ComplianceCheck.Classify | skills/.curated/legal/compliance-checker/scripts/compliance_check.py:187-192 | compliant iff matched >= total * threshold; partial iff 0 < matched < total * threshold; non-compliant iff nothing matched and the bound is positive |
| ComplianceCheck.DefaultThreshold | skills/.curated/legal/compliance-checker/scripts/compliance_check.py:164 | under the 0.7 threshold, compliant iff 10 * matched >= 7 * total, non-compliant iff nothing of a non-empty list matched |
| ComplianceCheck.CheckRequirement | skills/.curated/legal/compliance-checker/scripts/compliance_check.py:167-192 | the matches are `MatchingPatterns` of the lower-cased text and the status is their classification |
| ComplianceCheck.Evaluate | skills/.curated/legal/compliance-checker/scripts/compliance_check.py:199-206 | a requirement's entry: its key, patterns_matched = len(matches) <= patterns_total = len(patterns), and the classified status |
| ComplianceCheck.CheckRegulation | skills/.curated/legal/compliance-checker/scripts/compliance_check.py:199-208 | one entry per requirement of the table, in table order |
| ComplianceCheck.CheckGdprCompliance | skills/.curated/legal/compliance-checker/scripts/compliance_check.py:195-208 | the seven GDPR entries, in order |
| ComplianceCheck.CheckCcpaCompliance | skills/.curated/legal/compliance-checker/scripts/compliance_check.py:211-224 | the five CCPA entries, in order |
| ComplianceCheck.CheckHipaaCompliance | skills/.curated/legal/compliance-checker/scripts/compliance_check.py:227-240 | the six HIPAA entries, in order |
| ComplianceCheck.TableKeysDistinct | skills/.curated/legal/compliance-checker/scripts/compliance_check.py:24-142 | the requirement keys of each table are distinct |
| ComplianceCheck.StatusPartition | skills/.curated/legal/compliance-checker/scripts/compliance_check.py:249-250 | the compliant, partial and non-compliant counts add up to the number of results |
| ComplianceCheck.AllWithStatus | skills/.curated/legal/compliance-checker/scripts/compliance_check.py:249 | a status counts every result iff every result has it |
| ComplianceCheck.CalculateComplianceScore | skills/.curated/legal/compliance-checker/scripts/compliance_check.py:243-252 | the score lies in [0, 100]; it is 100 iff there are results and all are compliant; it is 0 iff none is compliant or partial |
| ComplianceCheck.Badge | skills/.curated/legal/compliance-checker/scripts/compliance_check.py:278 | the green badge iff score >= 80, the warning badge iff 60 <= score < 80, the red one iff score < 60 |
| ComplianceCheck.FullyCompliantBadge | skills/.curated/legal/compliance-checker/scripts/compliance_check.py:278 | a regulation with every requirement compliant gets the green badge |
| ComplianceCheck.KeysWith | skills/.curated/legal/compliance-checker/scripts/compliance_check.py:290-310 | a section lists exactly the keys with its status, one per such result |
| ComplianceCheck.SectionsPartition | skills/.curated/legal/compliance-checker/scripts/compliance_check.py:289-317 | every requirement is listed in exactly the section of its status, and the three sections have one line per requirement |
| ComplianceCheck.RecommendationsIffBelowFull | skills/.curated/legal/compliance-checker/scripts/compliance_check.py:322-327 | a checked regulation gets recommendations iff its score is below 100 |
| ComplianceCheck.PartialLines | skills/.curated/legal/compliance-checker/scripts/compliance_check.py:299-306 | one line per partial requirement |
| ComplianceCheck.DetailSection | skills/.curated/legal/compliance-checker/scripts/compliance_check.py:282-317 | a regulation with no results has no section; otherwise its three groups have one line per requirement |
| ComplianceCheck.RegulationNames | skills/.curated/legal/compliance-checker/scripts/compliance_check.py:397 | one name more than the argument has commas; every name is lower-case, has no white space at either end and no comma |
| ComplianceCheck.RegulationNamesJoin | skills/.curated/legal/compliance-checker/scripts/compliance_check.py:397 | parsing a comma-joined list of clean names gives back exactly that list |
| ComplianceCheck.FirstUnsupported | skills/.curated/legal/compliance-checker/scripts/compliance_check.py:399-404 | none iff every name is supported; otherwise the first unsupported name |
| ComplianceCheck.CheckRegulationNamed | skills/.curated/legal/compliance-checker/scripts/compliance_check.py:443-449 | a supported regulation's checker gives one entry per requirement of its table |
| ComplianceCheck.RunChecks | skills/.curated/legal/compliance-checker/scripts/compliance_check.py:440-451 | results and scores have exactly the named regulations as keys, each with its table's entries and their compliance score |
| ContractReview.MissingOf | skills/.curated/legal/contract-review/scripts/extract_contract.py:215-218 | exactly the provisions whose lower-cased text does not occur in the lower-cased contract, no more than there are provisions |
| ContractReview.CheckMissingProvisions | skills/.curated/legal/contract-review/scripts/extract_contract.py:208-218 | the missing provisions are `MissingOf` the checklist, at most 14 |
| ContractReview.MissingInOrder | skills/.curated/legal/contract-review/scripts/extract_contract.py:215-218 | the missing provisions keep their checklist order |
| ContractReview.FirstFound | skills/.curated/legal/contract-review/scripts/extract_contract.py:190-192 | a found pattern at some position with no earlier pattern found, so the first one found; none iff no pattern is found |
| ContractReview.Window | skills/.curated/legal/contract-review/scripts/extract_contract.py:196-197 | start = max(0, pos - 100), end = min(len, pos + 100), 0 <= start <= pos <= end <= len, and end - start <= 200 |
| ContractReview.Context | skills/.curated/legal/contract-review/scripts/extract_contract.py:196-198 | the context is at most 200 characters |
| ContractReview.RiskEntry | skills/.curated/legal/contract-review/scripts/extract_contract.py:186-205 | a risk type gives at most one entry, for its first found pattern, exactly when that pattern's text occurs in the lower-cased contract, titled after the type, with a context of at most 200 characters |
| ContractReview.SeverityRisks | skills/.curated/legal/contract-review/scripts/extract_contract.py:185-205 | a severity has no more entries than risk types |
| ContractReview.SeverityRisksComplete | skills/.curated/legal/contract-review/scripts/extract_contract.py:186-205 | every risk type whose first found pattern's text occurs in the lower-cased contract has an entry titled after it, for that pattern |
| ContractReview.SeverityRisksCount | skills/.curated/legal/contract-review/scripts/extract_contract.py:186-205 | the list has exactly one entry per recorded risk type: its length is the number of recorded types |
| ContractReview.CollectRisks | skills/.curated/legal/contract-review/scripts/extract_contract.py:186-205 | the loop over a severity's risk types appends each type's entry and gives exactly `SeverityRisks` |
| ContractReview.TypeRisk | skills/.curated/legal/contract-review/scripts/extract_contract.py:187-205 | the loop over one type's patterns, stopped by `break` at the first found pattern, gives exactly `RiskEntry` |
| ContractReview.CollectMissing | skills/.curated/legal/contract-review/scripts/extract_contract.py:213-216 | the loop over the checklist gives exactly `MissingOf` the checklist |
| ContractReview.IdentifyRisks | skills/.curated/legal/contract-review/scripts/extract_contract.py:181-207 | the high, medium and low lists, each `SeverityRisks` of its table, at most 4, 4 and 1 entries |
| ContractReview.SeverityRisksSound | skills/.curated/legal/contract-review/scripts/extract_contract.py:194-204 | every recorded risk is the entry of a risk type of its severity (titled after it, for that type's first found pattern), its pattern's text occurs in the lower-cased contract, and its context has at most 200 characters |
| ContractReview.NonEmptyStripped | skills/.curated/legal/contract-review/scripts/extract_contract.py:170-171 | the strings are exactly the non-empty stripped forms of the groups, no more of them than there are groups |
| ContractReview.FirstFiveDistinct | skills/.curated/legal/contract-review/scripts/extract_contract.py:176 | at most five distinct matches, all of them when fewer than five are distinct |
| ContractReview.ExtractTerms | skills/.curated/legal/contract-review/scripts/extract_contract.py:163-176 | for any table of terms and patterns, one entry per term in table order, each holding at most five distinct matches of that term's patterns and all of them when fewer than five |
| ContractReview.ExtractKeyTerms | skills/.curated/legal/contract-review/scripts/extract_contract.py:159-178 | one entry per key term in order, each with at most five distinct values drawn from the term's matches, all of them when fewer than five |
| ContractReview.GatherMatches | skills/.curated/legal/contract-review/scripts/extract_contract.py:164-173 | the matches of a term are `TermMatches`, pattern by pattern |
| ContractReview.AppendFlattened | skills/.curated/legal/contract-review/scripts/extract_contract.py:169-173 | the item loop appends exactly `Flattened` of the findall result |
| ContractReview.ExecutiveSummary | skills/.curated/legal/contract-review/scripts/extract_contract.py:244-249 | each severity count is the length of that severity's list, the total is their sum, and it is 0 iff no severity has a risk |
| ContractReview.RiskTotalBound | skills/.curated/legal/contract-review/scripts/extract_contract.py:244 | a contract yields at most nine risks |
| ContractReview.NextStepsFor | skills/.curated/legal/contract-review/scripts/extract_contract.py:301-312 | "do not sign" iff there are high risks; otherwise the medium advice iff there are medium risks; otherwise the general review |
| ContractReview.NoRisksGeneralReview | skills/.curated/legal/contract-review/scripts/extract_contract.py:288-312 | a report with no risk says so and advises the general review |
| ContractReview.ShownKeyTerms | skills/.curated/legal/contract-review/scripts/extract_contract.py:254-259 | exactly the key terms with some value are shown |
| Sorting.Sort | skills/.system/legal-skill-factory/scripts/skill_registry.py:125 | `list.sort` by a total preorder: the result is sorted and a permutation of the input |

## Left out

- The LLM agents, YAML configuration, JSON decoding and SHA-256 are opaque function-valued fields. The model states only what the code does with answers that are undecodable or well-formed; the exception paths for decodable answers of the wrong shape are listed next.
- `signatures.py` holds only agent signature declarations and prompt text, with no executable logic.
- The regular-expression engine is a parameter. The patterns are kept verbatim, but their matching semantics are not modelled, including IGNORECASE and MULTILINE. The two exceptions are modelled directly: the whole-word jurisdiction match of `extract_components` and the white-space `re.sub` of `normalize_text`.
- DetectCapability.ExtractJurisdiction: `\b` is modelled with the ASCII `\w` (`IsWordChar`: ASCII letters, digits and `_`). Python counts every Unicode letter and digit as a word character, so next to a non-ASCII letter the model can find a whole word that Python does not (in "éus", "us").
- Text operations are ASCII. `lower`, `strip` and `title` do not model Unicode case mapping. White space (`Text.IsSpace`) is the ASCII white space of `str.isspace`, U+001C to U+001F included; non-ASCII white space such as U+0085, U+00A0 or U+2028 is not modelled. A lower-casing that changes the length of a non-ASCII text, and so shifts `find` positions, is not modelled.
- `re.sub(r'\s+', ' ', ...)` is modelled with the same white space (`Text.IsSpace`).
- NormalizeText: its lower-case and white-space claims are about ASCII letters and ASCII white space only, for the reason above.
- Iteration order over Python sets (the vocabularies in `extract_components`, `list(set(matches))`) is a nondeterministic choice. The contracts say which elements qualify, not which one is taken.
- The tie order of Python's stable sorts is not modelled. The sorts are specified as sorted permutations.
- File, PDF and DOCX reading, loading and saving the registry JSON file, the directory walk, `argparse`, printing, exit codes and the Markdown text of the reports are not modelled. Only the report's grouping, counts and selection are.
- Registry records loaded from a file with missing keys are not modelled: every record has all fields, and a missing creation time is the empty string.
- `datetime.now()` values are `now` parameters.
- SkillRegistry.Registered: one `now` stands for both `datetime.now()` calls of a first registration (skill_registry.py:85 and :87), so the model has `created_at == updated_at` for a new skill, which the source does not guarantee.
- Floating-point formatting of scores and ratios is not modelled. Ratios, scores and thresholds are exact reals.
- In the compliance checker's `main`, the joining of the policy, practices and security files into one text is not modelled; the combined text is a parameter. The `.upper()` display of regulation names is left out too.
- Documented pipeline behaviour that the code does not implement is not modelled: evidence dedup, quality-floor ranking, contradiction detection, the ESCALATED state and guidance entries.
- Exceptions raised on agent answers or configuration that decode but have the wrong shape are not modelled. Decoded values are typed (`Option<Draft>`, `Option<AuditReport>`, a `Config` with every field), so these exits cannot occur in the model:
  - the `KeyError` when a draft lacks `claim_ledger` or `sentence_map` (pipeline.py:146-147, 153-154);
  - the `AttributeError` when the ledger or a claim is not an object (pipeline.py:85-89);
  - the `KeyError` when the configuration has no `pipeline.max_revision_cycles` (pipeline.py:142).
- `Pipeline.ReasoningBridge.ProcessHaystack`: the JSON text passed to the context gardener and the drafter is replaced by the values it encodes. Those values are reduced: each claim keeps only `claim_type` and `has_valid_pinpoint`, so the drafter and the critic see a draft without the claims' other keys.
- ContractReview.AppendFlattened: the tuple-or-string branch of the loop body is the function `ItemMatches`, which the loop calls.
