/**
 * The orchestration of the Gemini Reasoning Bridge: the Claim-Citation
 * Coverage (CCC) metric, the bounded audit/revise loop of `process_haystack`
 * and the spec-hash gate in front of the code builder.
 *
 * The five language-model agents, SHA-256 and `json.loads` are function
 * fields of `ReasoningBridge`: nothing is assumed of them beyond being
 * functions, so every property below holds whatever they answer.
 */
module Pipeline {
  import opened Wrappers

  const PASS := "PASS"
  const FAIL := "FAIL"
  const FACTUAL := "factual"
  /** Default of the `ccc_threshold` key of the `socratic_critic` node. */
  const DEFAULT_CCC_THRESHOLD: real := 0.95

  /** One claim of a draft's ledger, reduced to the two keys the gate reads. */
  datatype Claim = Claim(claimType: Option<string>, hasValidPinpoint: bool)

  /** A ledger whose `claims` key is missing is read as one with no claims. */
  datatype ClaimLedger = ClaimLedger(claims: seq<Claim>)

  /** A parsed draft; sentence-map entries are kept as opaque JSON text. */
  datatype Draft = Draft(narrative: string, sentenceMap: seq<string>, claimLedger: ClaimLedger)

  datatype CccMetric = CccMetric(v: nat, u: nat, ratio: real, threshold: real)

  /** The critic's report: the keys the pipeline reads or writes. */
  datatype AuditReport = AuditReport(
    auditStatus: string,
    error: Option<string>,
    revisionGuidance: seq<string>,
    unsupportedClaims: seq<string>,
    cccMetric: Option<CccMetric>)

  datatype EvidenceItem = EvidenceItem(fields: map<string, string>)

  /** `socratic_critic.ccc_threshold` (optional) and `pipeline.max_revision_cycles`. */
  datatype Config = Config(cccThreshold: Option<real>, maxRevisionCycles: int)

  /** What the drafter is asked: a first draft, or a revision of the previous one. */
  datatype DrafterContext =
    | Initial(evidence: seq<EvidenceItem>)
    | Revision(evidence: seq<EvidenceItem>, previousDraft: Draft,
               auditFeedback: seq<string>, unsupportedClaims: seq<string>)

  datatype ActiveSpec = ActiveSpec(specHash: Option<string>)
  datatype ArchitectureLedger = ArchitectureLedger(activeSpec: Option<ActiveSpec>)

  datatype PipelineOutput = PipelineOutput(
    evidence: seq<EvidenceItem>, draft: Draft, auditReport: AuditReport, status: string)

  /** The loop never ran, so `audit_report` is unbound when the result is built. */
  datatype PipelineError = AuditReportUnbound

  /** Code generation blocked by the spec-first protocol. */
  datatype GateError = SpecHashMismatch

  /**
   * One pass of the audit loop: the draft audited, the metric computed,
   * the report as it stands after the pass, and the revised draft when the
   * drafter was asked for one.
   */
  datatype Cycle = Cycle(draft: Draft, metric: CccMetric, report: AuditReport, revision: Option<Draft>)

  predicate IsFactual(c: Claim) {
    c.claimType == Some(FACTUAL)
  }

  /** U: the factual claims. */
  function FactualCount(claims: seq<Claim>): nat {
    if claims == [] then 0
    else (if IsFactual(claims[0]) then 1 else 0) + FactualCount(claims[1..])
  }

  /** V: the factual claims that carry a valid pinpoint. */
  function ValidCount(claims: seq<Claim>): nat {
    if claims == [] then 0
    else (if IsFactual(claims[0]) && claims[0].hasValidPinpoint then 1 else 0) + ValidCount(claims[1..])
  }

  /** Every factual claim has a valid pinpoint. */
  predicate FullyCited(claims: seq<Claim>) {
    forall i :: 0 <= i < |claims| && IsFactual(claims[i]) ==> claims[i].hasValidPinpoint
  }

  lemma {:induction false} ValidAtMostFactual(claims: seq<Claim>)
    ensures ValidCount(claims) <= FactualCount(claims)
    ensures ValidCount(claims) == FactualCount(claims) <==> FullyCited(claims)
  {
    if claims != [] {
      ValidAtMostFactual(claims[1..]);
      assert FullyCited(claims) <==> (IsFactual(claims[0]) ==> claims[0].hasValidPinpoint) && FullyCited(claims[1..]) by {
        if FullyCited(claims[1..]) && (IsFactual(claims[0]) ==> claims[0].hasValidPinpoint) {
          forall i | 0 <= i < |claims| && IsFactual(claims[i])
            ensures claims[i].hasValidPinpoint
          {
            if i > 0 { assert claims[i] == claims[1..][i - 1]; }
          }
        }
      }
    }
  }

  function Threshold(config: Config): real {
    config.cccThreshold.GetOr(DEFAULT_CCC_THRESHOLD)
  }

  /**
   * `_calculate_ccc_metric`: V <= U, the ratio is V/U and lies in [0, 1];
   * with no factual claim the ratio is 0.0, and it is 1.0 exactly when some
   * claim is factual and every factual claim is cited.
   */
  function CalculateCccMetric(ledger: ClaimLedger, config: Config): (m: CccMetric)
    ensures m.u == FactualCount(ledger.claims) && m.v == ValidCount(ledger.claims)
    ensures m.v <= m.u
    ensures 0.0 <= m.ratio <= 1.0
    ensures m.u == 0 ==> m.ratio == 0.0
    ensures m.ratio == 1.0 <==> m.u > 0 && FullyCited(ledger.claims)
    ensures m.threshold == Threshold(config)
  {
    var u := FactualCount(ledger.claims);
    var v := ValidCount(ledger.claims);
    ValidAtMostFactual(ledger.claims);
    var ratio := if u > 0 then v as real / u as real else 0.0;
    assert u > 0 ==> (0.0 <= ratio <= 1.0 && ratio * u as real == v as real && (ratio == 1.0 <==> v == u)) by {
      if u > 0 { RatioBounds(v, u); }
    }
    CccMetric(v, u, ratio, Threshold(config))
  }

  /** With some factual claim, the ratio is V / U: times U it gives back V. */
  lemma CccRatio(ledger: ClaimLedger, config: Config)
    ensures var m := CalculateCccMetric(ledger, config);
            m.u > 0 ==> m.ratio * m.u as real == m.v as real
  {
    var m := CalculateCccMetric(ledger, config);
    if m.u > 0 {
      RatioBounds(m.v, m.u);
    }
  }

  lemma RatioBounds(v: nat, u: nat)
    requires v <= u && u > 0
    ensures 0.0 <= v as real / u as real <= 1.0
    ensures (v as real / u as real) * u as real == v as real
    ensures v as real / u as real == 1.0 <==> v == u
  {
    var r := v as real / u as real;
    assert r * u as real == v as real;
    assert r * u as real <= 1.0 * u as real;
    if r == 1.0 {
      assert v as real == u as real;
    }
  }

  /** With no factual claim the gate cannot pass under any positive threshold. */
  lemma NoFactualClaimsFail(ledger: ClaimLedger, config: Config)
    requires FactualCount(ledger.claims) == 0
    requires Threshold(config) > 0.0
    ensures !(CalculateCccMetric(ledger, config).ratio >= CalculateCccMetric(ledger, config).threshold)
  {
  }

  /** The expected hash: `active_spec.spec_hash`, with `''` for a missing key. */
  function ExpectedHash(ledger: ArchitectureLedger): string {
    match ledger.activeSpec
    case None => ""
    case Some(spec) => spec.specHash.GetOr("")
  }

  /**
   * `_verify_spec_hash`: equality with the active spec's hash; a ledger
   * without one accepts only the empty hash.
   */
  function VerifySpecHash(specHash: string, ledger: ArchitectureLedger): (ok: bool)
    ensures ok && specHash != "" ==> ledger.activeSpec == Some(ActiveSpec(Some(specHash)))
    ensures ledger.activeSpec == Some(ActiveSpec(Some(specHash))) ==> ok
    ensures (ledger.activeSpec.None? || ledger.activeSpec.value.specHash.None?) ==> (ok <==> specHash == "")
    ensures ledger.activeSpec.Some? && ledger.activeSpec.value.specHash.Some? ==>
              (ok <==> specHash == ledger.activeSpec.value.specHash.value)
  {
    specHash == ExpectedHash(ledger)
  }

  class ReasoningBridge {
    const config: Config
    const evidenceManager: string -> string
    const contextGardener: seq<EvidenceItem> -> string
    const drafter: DrafterContext -> string
    const critic: (ClaimLedger, seq<string>) -> string
    const builder: (string, ArchitectureLedger) -> string
    /** SHA-256 as a hex digest. */
    const sha256: string -> string
    /** `json.loads` of each kind of agent answer; None is a JSONDecodeError. */
    const decodeEvidence: string -> Option<seq<EvidenceItem>>
    const decodeDraft: string -> Option<Draft>
    const decodeAudit: string -> Option<AuditReport>

    constructor (config: Config,
                 evidenceManager: string -> string,
                 contextGardener: seq<EvidenceItem> -> string,
                 drafter: DrafterContext -> string,
                 critic: (ClaimLedger, seq<string>) -> string,
                 builder: (string, ArchitectureLedger) -> string,
                 sha256: string -> string,
                 decodeEvidence: string -> Option<seq<EvidenceItem>>,
                 decodeDraft: string -> Option<Draft>,
                 decodeAudit: string -> Option<AuditReport>)
      ensures this.config == config && this.drafter == drafter && this.critic == critic
      ensures this.builder == builder && this.sha256 == sha256
      ensures this.evidenceManager == evidenceManager && this.contextGardener == contextGardener
      ensures this.decodeEvidence == decodeEvidence && this.decodeDraft == decodeDraft
      ensures this.decodeAudit == decodeAudit
    {
      this.config := config;
      this.evidenceManager := evidenceManager;
      this.contextGardener := contextGardener;
      this.drafter := drafter;
      this.critic := critic;
      this.builder := builder;
      this.sha256 := sha256;
      this.decodeEvidence := decodeEvidence;
      this.decodeDraft := decodeDraft;
      this.decodeAudit := decodeAudit;
    }

    /** `_parse_evidence`: undecodable text becomes one item holding it as content. */
    function ParseEvidence(s: string): (items: seq<EvidenceItem>)
      ensures decodeEvidence(s).Some? ==> items == decodeEvidence(s).value
      ensures decodeEvidence(s).None? ==> items == [EvidenceItem(map["content" := s])]
    {
      match decodeEvidence(s)
      case Some(items) => items
      case None => [EvidenceItem(map["content" := s])]
    }

    /** `_parse_draft`: undecodable text becomes the narrative of a draft with no claims. */
    function ParseDraft(s: string): (d: Draft)
      ensures decodeDraft(s).Some? ==> d == decodeDraft(s).value
      ensures decodeDraft(s).None? ==> d.narrative == s && d.sentenceMap == [] && d.claimLedger.claims == []
    {
      match decodeDraft(s)
      case Some(d) => d
      case None => Draft(s, [], ClaimLedger([]))
    }

    /** `_parse_audit_report`: undecodable text becomes a FAIL report with an error. */
    function ParseAuditReport(s: string): (r: AuditReport)
      ensures decodeAudit(s).Some? ==> r == decodeAudit(s).value
      ensures decodeAudit(s).None? ==> r.auditStatus == FAIL && r.error == Some("Invalid audit report format")
    {
      match decodeAudit(s)
      case Some(r) => r
      case None => AuditReport(FAIL, Some("Invalid audit report format"), [], [], None)
    }

    /** A draft the drafter answered with non-JSON has U = 0, so its ratio is 0.0. */
    lemma UndecodableDraftScoresZero(s: string)
      requires decodeDraft(s).None?
      ensures CalculateCccMetric(ParseDraft(s).claimLedger, config).u == 0
      ensures CalculateCccMetric(ParseDraft(s).claimLedger, config).ratio == 0.0
    {
    }

    /** Stages 1 and 2: normalised, then ranked evidence. */
    function RankedEvidence(rawHaystack: string): seq<EvidenceItem> {
      ParseEvidence(contextGardener(ParseEvidence(evidenceManager(rawHaystack))))
    }

    /** Stage 3: the first draft. */
    function InitialDraft(rawHaystack: string): Draft {
      ParseDraft(drafter(Initial(RankedEvidence(rawHaystack))))
    }

    /**
     * One pass of the loop at index `cycle`: the critic audits `draft`, the
     * gate overwrites the status, and on a FAIL before the last pass the
     * drafter revises the draft from the report's guidance.
     */
    function AuditPass(draft: Draft, ranked: seq<EvidenceItem>, cycle: nat): (c: Cycle)
      ensures c.draft == draft && c.metric == CalculateCccMetric(draft.claimLedger, config)
      ensures c.report.auditStatus == (if c.metric.ratio >= c.metric.threshold then PASS else FAIL)
      ensures c.report.auditStatus == FAIL ==> c.report.cccMetric == Some(c.metric)
      ensures c.revision.Some? <==> c.report.auditStatus == FAIL && cycle < config.maxRevisionCycles - 1
    {
      var report := ParseAuditReport(critic(draft.claimLedger, draft.sentenceMap));
      var metric := CalculateCccMetric(draft.claimLedger, config);
      if metric.ratio >= metric.threshold then
        Cycle(draft, metric, report.(auditStatus := PASS), None)
      else
        var failed := report.(auditStatus := FAIL);
        var revision :=
          if cycle < config.maxRevisionCycles - 1 then
            Some(ParseDraft(drafter(Revision(ranked, draft, failed.revisionGuidance, failed.unsupportedClaims))))
          else
            None;
        Cycle(draft, metric, failed.(cccMetric := Some(metric)), revision)
    }

    /**
     * The passes of the audit loop from pass `cycle` on, starting from `draft`:
     * at least one and at most the passes left when any are left; a pass
     * that revised the draft is followed by a pass over the revision.
     */
    function Cycles(draft: Draft, ranked: seq<EvidenceItem>, cycle: nat): (t: seq<Cycle>)
      decreases config.maxRevisionCycles - cycle
      ensures cycle < config.maxRevisionCycles ==> 1 <= |t| <= config.maxRevisionCycles - cycle
      ensures cycle >= config.maxRevisionCycles ==> t == []
    {
      if cycle >= config.maxRevisionCycles then
        []
      else
        var c := AuditPass(draft, ranked, cycle);
        match c.revision
        case None => [c]
        case Some(next) => [c] + Cycles(next, ranked, cycle + 1)
    }

    /**
     * The hard gate as one pass applies it: the metric is that of the pass's
     * draft, the status is PASS exactly when ratio >= threshold, whatever the
     * critic answered, and the metric is written into the report on a FAIL.
     */
    predicate Gated(c: Cycle) {
      && c.metric == CalculateCccMetric(c.draft.claimLedger, config)
      && c.report.auditStatus == (if c.metric.ratio >= c.metric.threshold then PASS else FAIL)
      && (c.report.auditStatus == FAIL ==> c.report.cccMetric == Some(c.metric))
    }

    /** Every pass of a run applies the hard gate. */
    lemma {:induction false} CyclesGate(draft: Draft, ranked: seq<EvidenceItem>, cycle: nat)
      ensures forall i :: 0 <= i < |Cycles(draft, ranked, cycle)| ==> Gated(Cycles(draft, ranked, cycle)[i])
      decreases config.maxRevisionCycles - cycle
    {
      var t := Cycles(draft, ranked, cycle);
      if cycle < config.maxRevisionCycles {
        var c := AuditPass(draft, ranked, cycle);
        assert Gated(c);
        if c.revision.Some? {
          var rest := Cycles(c.revision.value, ranked, cycle + 1);
          assert t == [c] + rest;
          CyclesGate(c.revision.value, ranked, cycle + 1);
          forall i | 0 <= i < |t| ensures Gated(t[i]) {
            if i > 0 {
              assert t[i] == rest[i - 1];
            }
          }
        } else {
          assert t == [c];
        }
      }
    }

    /** Pass `i` failed and asked for the revision that pass `i + 1` audits. */
    predicate Linked(t: seq<Cycle>, i: nat)
      requires i + 1 < |t|
    {
      t[i].report.auditStatus == FAIL && t[i].revision == Some(t[i + 1].draft)
    }

    /**
     * How the passes `t` of a run from `draft` at pass `cycle` hang
     * together: the first audits `draft`; every pass but the last failed and
     * its revision is the next pass's draft; the last revises nothing; a run
     * ending in FAIL used up every pass.
     */
    predicate Chained(t: seq<Cycle>, draft: Draft, ranked: seq<EvidenceItem>, cycle: nat) {
      && (t != [] ==> t[0].draft == draft && t[|t| - 1].revision == None)
      && (|t| > 1 ==> t[1..] == Cycles(t[1].draft, ranked, cycle + 1))
      && (forall i: nat :: i + 1 < |t| ==> Linked(t, i))
      && (t != [] && t[|t| - 1].report.auditStatus == FAIL ==> |t| == config.maxRevisionCycles - cycle)
    }

    /** The loop stops at the first PASS, and the passes of every run are chained. */
    lemma {:induction false} CyclesChain(draft: Draft, ranked: seq<EvidenceItem>, cycle: nat)
      ensures Chained(Cycles(draft, ranked, cycle), draft, ranked, cycle)
      decreases config.maxRevisionCycles - cycle
    {
      var t := Cycles(draft, ranked, cycle);
      if cycle < config.maxRevisionCycles {
        var c := AuditPass(draft, ranked, cycle);
        if c.revision.Some? {
          var rest := Cycles(c.revision.value, ranked, cycle + 1);
          assert t == [c] + rest;
          CyclesChain(c.revision.value, ranked, cycle + 1);
          assert t[1..] == rest;
          forall i: nat | i + 1 < |t| ensures Linked(t, i) {
            if i > 0 {
              assert Linked(rest, i - 1);
              assert t[i] == rest[i - 1] && t[i + 1] == rest[i];
            }
          }
        } else {
          assert t == [c];
        }
      }
    }

    /**
     * The body of one iteration of the audit loop at index `revisionCycle`:
     * the critic's report, the CCC hard gate overwriting its status, and on a
     * FAIL before the last pass the revised draft. It computes `AuditPass`.
     * It is a method, apart from the function, because in the source these
     * steps are statements of the loop body that `AuditLoop` runs; the
     * function is what the loop and the lemmas about whole runs are stated in.
     */
    method AuditStep(draft: Draft, ranked: seq<EvidenceItem>, revisionCycle: nat) returns (c: Cycle)
      ensures c == AuditPass(draft, ranked, revisionCycle)
      ensures c.report.auditStatus == PASS <==> c.metric.ratio >= c.metric.threshold
    {
      var report := ParseAuditReport(critic(draft.claimLedger, draft.sentenceMap));
      var metric := CalculateCccMetric(draft.claimLedger, config);
      var revision: Option<Draft> := None;
      if metric.ratio >= metric.threshold {
        report := report.(auditStatus := PASS);
      } else {
        report := report.(auditStatus := FAIL);
        if revisionCycle < config.maxRevisionCycles - 1 {
          // Revise the draft from the audit's guidance
          revision := Some(ParseDraft(drafter(Revision(ranked, draft, report.revisionGuidance, report.unsupportedClaims))));
        }
        report := report.(cccMetric := Some(metric));
      }
      c := Cycle(draft, metric, report, revision);
    }

    /**
     * The `for revision_cycle in range(max_revisions)` loop of
     * `process_haystack`, from the first draft on. The trace records one
     * entry per critic call. With `max_revision_cycles < 1` the loop never
     * runs and no report is bound; otherwise the report and draft left are
     * those of the last pass, whose status is the gate's verdict on it.
     */
    method AuditLoop(first: Draft, ranked: seq<EvidenceItem>)
      returns (auditReport: Option<AuditReport>, draft: Draft, trace: seq<Cycle>)
      ensures LoopDone(first, ranked, trace, draft, auditReport)
    {
      draft := first;
      var maxRevisions := config.maxRevisionCycles;
      auditReport := None;
      trace := [];
      var revisionCycle: nat := 0;
      while revisionCycle < maxRevisions
        invariant LoopState(first, ranked, trace, draft, auditReport, revisionCycle)
      {
        var entry := AuditStep(draft, ranked, revisionCycle);
        LoopStep(first, ranked, trace, draft, auditReport, revisionCycle, entry);
        trace := trace + [entry];
        auditReport := Some(entry.report);
        if entry.report.auditStatus == PASS {
          return;
        }
        draft := entry.revision.GetOr(draft);
        revisionCycle := revisionCycle + 1;
      }
      LoopExit(first, ranked, trace, draft, auditReport, revisionCycle);
    }

    /**
     * The audit loop's state before the pass at `cycle`: the passes run so
     * far followed by those still to come from `draft` make up the whole
     * run, and the report is the last pass's.
     */
    predicate LoopState(first: Draft, ranked: seq<EvidenceItem>, trace: seq<Cycle>, draft: Draft,
                        auditReport: Option<AuditReport>, cycle: nat)
    {
      && trace + Cycles(draft, ranked, cycle) == Cycles(first, ranked, 0)
      && |trace| == cycle
      && auditReport == (if trace == [] then None else Some(trace[|trace| - 1].report))
      && (trace != [] ==> trace[|trace| - 1].revision.GetOr(trace[|trace| - 1].draft) == draft)
    }

    /** What the audit loop promises on leaving: the whole run, and the last pass's report and draft. */
    predicate LoopDone(first: Draft, ranked: seq<EvidenceItem>, trace: seq<Cycle>, draft: Draft,
                       auditReport: Option<AuditReport>)
    {
      trace == Cycles(first, ranked, 0) && RunOutcome(trace, draft, auditReport)
    }

    /**
     * The report and draft a run of passes `trace` leaves behind: no report
     * when no pass may run, otherwise the last pass's report and draft, with
     * the gate's verdict.
     */
    predicate RunOutcome(trace: seq<Cycle>, draft: Draft, auditReport: Option<AuditReport>) {
      && (auditReport.None? <==> config.maxRevisionCycles < 1)
      && (auditReport.Some? ==>
            && trace != []
            && var last := trace[|trace| - 1];
               auditReport.value == last.report && draft == last.draft && GateVerdict(last))
    }

    /** Leaving the loop by its condition: no pass is left, so the run is complete. */
    lemma LoopExit(first: Draft, ranked: seq<EvidenceItem>, trace: seq<Cycle>, draft: Draft,
                   auditReport: Option<AuditReport>, cycle: nat)
      requires LoopState(first, ranked, trace, draft, auditReport, cycle)
      requires cycle >= config.maxRevisionCycles
      ensures LoopDone(first, ranked, trace, draft, auditReport)
    {
      assert Cycles(draft, ranked, cycle) == [];
      assert trace + [] == trace;
      assert trace == Cycles(first, ranked, 0);
      LastPass(trace, first, ranked);
      FinalPass(trace, draft, auditReport);
    }

    /** The outcome of a complete run, from how its last pass ended. */
    lemma FinalPass(trace: seq<Cycle>, draft: Draft, auditReport: Option<AuditReport>)
      requires trace == [] <==> config.maxRevisionCycles < 1
      requires auditReport == if trace == [] then None else Some(trace[|trace| - 1].report)
      requires trace != [] ==> trace[|trace| - 1].revision.GetOr(trace[|trace| - 1].draft) == draft
      requires trace != [] ==> trace[|trace| - 1].revision == None && GateVerdict(trace[|trace| - 1])
      ensures RunOutcome(trace, draft, auditReport)
    {
    }

    /** A pass's status is PASS or FAIL, and PASS exactly when its ratio reached its threshold. */
    predicate GateVerdict(c: Cycle) {
      && (c.report.auditStatus == PASS <==> c.metric.ratio >= c.metric.threshold)
      && (c.report.auditStatus == PASS || c.report.auditStatus == FAIL)
    }

    /** The last pass of a run revises nothing and carries the gate's verdict. */
    lemma LastPass(t: seq<Cycle>, first: Draft, ranked: seq<EvidenceItem>)
      requires t == Cycles(first, ranked, 0)
      ensures t == [] <==> config.maxRevisionCycles < 1
      ensures t != [] ==> t[|t| - 1].revision == None && GateVerdict(t[|t| - 1])
    {
      CyclesChain(first, ranked, 0);
      CyclesGate(first, ranked, 0);
      if t != [] {
        assert Gated(t[|t| - 1]);
      }
    }

    /**
     * One turn of the audit loop: the pass at `cycle` joins the trace; a
     * PASS ends the run, otherwise the loop goes on from the revision.
     */
    lemma LoopStep(first: Draft, ranked: seq<EvidenceItem>, trace: seq<Cycle>, draft: Draft,
                   auditReport: Option<AuditReport>, cycle: nat, entry: Cycle)
      requires cycle < config.maxRevisionCycles
      requires LoopState(first, ranked, trace, draft, auditReport, cycle)
      requires entry == AuditPass(draft, ranked, cycle)
      ensures entry.report.auditStatus == PASS ==> LoopDone(first, ranked, trace + [entry], draft, Some(entry.report))
      ensures entry.report.auditStatus != PASS ==>
                LoopState(first, ranked, trace + [entry], entry.revision.GetOr(draft), Some(entry.report), cycle + 1)
    {
      assert Cycles(draft, ranked, cycle)
             == [entry] + (if entry.revision.Some? then Cycles(entry.revision.value, ranked, cycle + 1) else []);
      var next := trace + [entry];
      assert next[|next| - 1] == entry;
      if entry.revision.Some? {
        Regroup(trace, entry, Cycles(entry.revision.value, ranked, cycle + 1));
      } else {
        Regroup(trace, entry, []);
        assert next + [] == next;
        if entry.report.auditStatus != PASS {
          assert Cycles(draft, ranked, cycle + 1) == [];
        } else {
          LastPass(next, first, ranked);
          FinalPass(next, draft, Some(entry.report));
        }
      }
    }

    lemma Regroup(trace: seq<Cycle>, entry: Cycle, rest: seq<Cycle>)
      ensures trace + ([entry] + rest) == trace + [entry] + rest
    {
    }

    /**
     * `process_haystack`: stages 1 to 3, then the audit loop. The result
     * carries the ranked evidence and the last pass's draft, report and
     * status; PASS exactly when that pass's ratio reached the threshold.
     */
    method ProcessHaystack(rawHaystack: string) returns (r: Result<PipelineOutput, PipelineError>, trace: seq<Cycle>)
      ensures trace == Cycles(InitialDraft(rawHaystack), RankedEvidence(rawHaystack), 0)
      ensures r.Err? <==> config.maxRevisionCycles < 1
      ensures r.Ok? ==> 1 <= |trace| <= config.maxRevisionCycles
      ensures r.Ok? ==>
                var last := trace[|trace| - 1];
                r.value == PipelineOutput(RankedEvidence(rawHaystack), last.draft, last.report, last.report.auditStatus)
      ensures r.Ok? ==> (r.value.status == PASS <==> trace[|trace| - 1].metric.ratio >= trace[|trace| - 1].metric.threshold)
      ensures r.Ok? ==> r.value.status == PASS || r.value.status == FAIL
    {
      // Stage 1: Evidence Manager
      var evidence := ParseEvidence(evidenceManager(rawHaystack));
      // Stage 2: Context Gardener
      var ranked := ParseEvidence(contextGardener(evidence));
      // Stage 3: Structural Drafter
      var draft := ParseDraft(drafter(Initial(ranked)));
      // Stage 4: Socratic Critic with the CCC hard gate
      var auditReport;
      auditReport, draft, trace := AuditLoop(draft, ranked);
      if auditReport.None? {
        r := Err(AuditReportUnbound);
      } else {
        var report := auditReport.value;
        r := Ok(PipelineOutput(ranked, draft, report, report.auditStatus));
      }
    }

    /** The number of passes that asked the drafter for a revision. */
    function Revisions(t: seq<Cycle>): nat {
      if t == [] then 0 else (if t[0].revision.Some? then 1 else 0) + Revisions(t[1..])
    }

    /**
     * The drafter is asked for a revision once per pass except the last,
     * hence at most `max_revision_cycles - 1` times, never after the last pass.
     */
    lemma {:induction false} RevisionsBound(draft: Draft, ranked: seq<EvidenceItem>, cycle: nat)
      ensures var t := Cycles(draft, ranked, cycle);
              Revisions(t) == (if t == [] then 0 else |t| - 1)
      ensures cycle < config.maxRevisionCycles ==>
                Revisions(Cycles(draft, ranked, cycle)) <= config.maxRevisionCycles - cycle - 1
      decreases config.maxRevisionCycles - cycle
    {
      var t := Cycles(draft, ranked, cycle);
      CyclesChain(draft, ranked, cycle);
      if |t| > 1 {
        RevisionsBound(t[1].draft, ranked, cycle + 1);
      }
    }

    /** The run passes exactly when some pass reached the threshold. */
    lemma PassIffSomeCyclePassed(t: seq<Cycle>, draft: Draft, ranked: seq<EvidenceItem>)
      requires t == Cycles(draft, ranked, 0) && t != []
      ensures t[|t| - 1].report.auditStatus == PASS <==>
              exists i :: 0 <= i < |t| && t[i].metric.ratio >= t[i].metric.threshold
    {
      CyclesGate(draft, ranked, 0);
      CyclesChain(draft, ranked, 0);
      GatedChainPasses(t);
    }

    /** In gated, linked passes the last one passes exactly when some pass reached the threshold. */
    lemma GatedChainPasses(t: seq<Cycle>)
      requires t != []
      requires forall i :: 0 <= i < |t| ==> Gated(t[i])
      requires forall i: nat :: i + 1 < |t| ==> Linked(t, i)
      ensures t[|t| - 1].report.auditStatus == PASS <==>
              exists i :: 0 <= i < |t| && t[i].metric.ratio >= t[i].metric.threshold
    {
      var last := |t| - 1;
      assert Gated(t[last]);
      if t[last].report.auditStatus != PASS {
        forall i | 0 <= i < |t| ensures !(t[i].metric.ratio >= t[i].metric.threshold) {
          assert Gated(t[i]);
          if i < last {
            assert Linked(t, i);
          }
        }
      }
    }

    /** `generate_code`: the builder runs only on a spec whose hash is the approved one. */
    function GenerateCode(specMd: string, ledger: ArchitectureLedger): (r: Result<string, GateError>)
      ensures r.Ok? <==> sha256(specMd) == ExpectedHash(ledger)
      ensures r.Ok? ==> r.value == builder(specMd, ledger)
      ensures r.Err? ==> r.error == SpecHashMismatch
    {
      var specHash := sha256(specMd);
      if !VerifySpecHash(specHash, ledger) then
        Err(SpecHashMismatch)
      else
        Ok(builder(specMd, ledger))
    }

    /** Once a spec is approved, any edit that changes its hash is rejected. */
    lemma EditedSpecRejected(approved: string, edited: string, ledger: ArchitectureLedger)
      requires GenerateCode(approved, ledger).Ok?
      requires sha256(edited) != sha256(approved)
      ensures GenerateCode(edited, ledger).Err?
    {
    }

    /** A ledger with no active spec hash blocks every spec whose digest is non-empty. */
    lemma MissingHashBlocks(specMd: string, ledger: ArchitectureLedger)
      requires sha256(specMd) != ""
      requires ledger.activeSpec.None? || ledger.activeSpec.value.specHash.None?
      ensures GenerateCode(specMd, ledger) == Err(SpecHashMismatch)
    {
    }
  }
}
