/**
 `decideCandidate`: from persisted probe attempts to a decision. The decision is characterized
 reason by reason, `confirmed` is shown equivalent to the existence of a witness, and every
 result is shown to meet the contract that the shared report schema imposes.
 */
module Decision {
  import opened Wrappers
  import opened SpacedEvidence

  const MINUTE_MS := 60_000
  const HOUR_MS := 3_600_000
  const MAX_DATE_MS := 8_640_000_000_000_000
  const MAX_SAFE_INTEGER := 9_007_199_254_740_991
  const MAX_ATTEMPTS_PER_DIRECTION := 512
  const MAX_AVAILABLE_ADDRESSES := 1_024

  // ---------- Inputs ----------

  datatype ValidationAttempt = ValidationAttempt(
    attemptId: string, attemptedAt: int, category: ProbeCategory, transportSuccess: bool, httpStatus: Option<int>,
    resolvedAddress: Option<string>, availableAddressCount: int, finalOrigin: Option<string>)

  datatype RuleScope = Exact | Site
  datatype FilterPolicy = FilterPolicy(
    excludedTlds: seq<string>, neverAddDomains: seq<string>, neverAddSuffixes: seq<string>,
    nonWidenableSuffixes: seq<string>, telemetryPatterns: seq<string>)
  datatype DomainCandidate = DomainCandidate(
    fqdn: string, registrableSite: Option<string>, excluded: bool,
    selectedScope: Option<RuleScope>, proposedRule: Option<string>)

  datatype CoverageStatus = Covered | Uncovered | Incomplete
  datatype MatchKind = ExactMatch | SuffixMatch | KeywordMatch
  datatype CoverageMatch = CoverageMatch(kind: MatchKind, rule: string)
  datatype Coverage = Coverage(status: CoverageStatus, match_: Option<CoverageMatch>, incompleteSourceIds: seq<string>)

  datatype CandidateEvidence = CandidateEvidence(
    fqdn: string, connectionCount: int, observationHealthy: bool, filterPolicy: FilterPolicy,
    selectedScope: Option<RuleScope>, proposedRule: Option<string>, coverage: Coverage,
    direct: seq<ValidationAttempt>, proxy: seq<ValidationAttempt>)

  datatype DecisionPolicy = DecisionPolicy(
    minimumConnectionCount: int, directAttemptsRequired: int, minimumAttemptSpacingMinutes: int,
    validationWindowHours: int, minimumProxySuccesses: int, maximumProxyTransportFailures: int)

  /** Library code the decision calls: host-name, URL and address parsing, and candidate derivation. */
  datatype Libraries = Libraries(
    normalizeFqdn: string -> Option<string>,
    originFqdn: string -> Option<string>,
    canonicalPublicAddress: string -> Option<string>,
    deriveCandidate: (string, FilterPolicy, RuleScope) -> Option<DomainCandidate>,
    idPrecedes: (string, string) -> bool)

  // ---------- Decisions ----------

  datatype Reason =
    | InvalidPolicy | InvalidEvidence | ObserverUnhealthy | InsufficientObservations | CandidateExcluded | InvalidScope
    | CoverageIncomplete | AlreadyCovered | ProxyUnstable | ProxyEvidenceUncertain | InsufficientDirectFailures
    | DirectFailuresNotSpaced | DirectAddressDiversityMissing | InsufficientProxySuccesses

  datatype Status = Confirmed | Pending | Blocked
  datatype Confidence = NoConfidence | Low | High
  datatype Summary = Summary(
    directQualifyingFailures: nat, directSpacedFailures: nat, directAddressDiversityRequired: bool,
    directAddressDiversitySatisfied: bool, proxyHttpSuccesses: nat, proxyTransportFailures: nat,
    proxyUncertainFailures: nat)
  datatype CandidateDecision = CandidateDecision(
    status: Status, confidence: Confidence, reasons: seq<Reason>, windowStart: Option<int>, evidence: Summary)

  const EMPTY_SUMMARY := Summary(0, 0, false, false, 0, 0, 0)

  predicate Blocking(reason: Reason) {
    reason.InvalidPolicy? || reason.InvalidEvidence? || reason.ObserverUnhealthy? || reason.CandidateExcluded?
    || reason.InvalidScope? || reason.CoverageIncomplete? || reason.AlreadyCovered? || reason.ProxyUnstable?
    || reason.ProxyEvidenceUncertain?
  }

  function StatusForReasons(reasons: seq<Reason>): Status {
    if exists k :: 0 <= k < |reasons| && Blocking(reasons[k]) then Blocked
    else if |reasons| > 0 then Pending else Confirmed
  }

  function ConfidenceForStatus(status: Status): Confidence {
    match status case Confirmed => High case Pending => Low case Blocked => NoConfidence
  }

  function Decide(reasons: seq<Reason>, windowStart: Option<int>, evidence: Summary): CandidateDecision {
    var status := StatusForReasons(reasons);
    CandidateDecision(status, ConfidenceForStatus(status), reasons, windowStart, evidence)
  }

  // ---------- Validation ----------

  predicate IsSafeCount(value: int) {
    0 <= value <= 1_000_000
  }

  predicate IsSafeInteger(value: int) {
    -MAX_SAFE_INTEGER <= value <= MAX_SAFE_INTEGER
  }

  predicate ValidPolicy(policy: DecisionPolicy) {
    && IsSafeCount(policy.minimumConnectionCount) && policy.minimumConnectionCount >= 3
    && IsSafeCount(policy.directAttemptsRequired) && policy.directAttemptsRequired >= 3
    && IsSafeCount(policy.minimumAttemptSpacingMinutes) && policy.minimumAttemptSpacingMinutes >= 120
    && 1 <= policy.validationWindowHours <= 24
    && IsSafeCount(policy.minimumProxySuccesses) && policy.minimumProxySuccesses >= 2
    && policy.maximumProxyTransportFailures == 0
  }

  predicate ValidEvaluationTime(value: int, windowMs: int) {
    IsSafeInteger(value) && windowMs <= value <= MAX_DATE_MS
  }

  predicate IsAttemptId(id: string) {
    1 <= |id| <= 128 && forall c :: c in id ==>
      'A' <= c <= 'Z' || 'a' <= c <= 'z' || '0' <= c <= '9' || c == '_' || c == '-'
  }

  predicate QualifyingFailure(category: ProbeCategory) {
    category.ConnectTimeout? || category.TlsTimeout? || category.TlsHandshakeReset?
    || category.ConnectionResetBeforeHttp? || category.DnsFailure?
  }

  predicate FailureWithHttpStatus(category: ProbeCategory) {
    category.UnsafeRedirect? || category.RedirectLimit?
  }

  function ValidateAttempt(attempt: ValidationAttempt, evaluatedAt: int, lib: Libraries): (r: Option<ValidatedAttempt>)
    ensures r.Some? ==>
      && 0 <= r.value.attemptedAt <= evaluatedAt && r.value.category == attempt.category
      && (r.value.category.HttpResponse? <==> r.value.transportSuccess)
      && (r.value.canonicalAddress.None? <==> r.value.availableAddressCount == 0)
  {
    var origin := if attempt.finalOrigin.None? then None else lib.originFqdn(attempt.finalOrigin.value);
    if !IsAttemptId(attempt.attemptId) || !IsSafeInteger(attempt.attemptedAt)
       || attempt.attemptedAt < 0 || attempt.attemptedAt > evaluatedAt
       || (attempt.httpStatus.Some? && !(100 <= attempt.httpStatus.value <= 599))
       || attempt.availableAddressCount < 0 || attempt.availableAddressCount > MAX_AVAILABLE_ADDRESSES
       || origin.None?
    then None
    else
      var address := if attempt.resolvedAddress.None? then None
          else lib.canonicalPublicAddress(attempt.resolvedAddress.value);
      if attempt.resolvedAddress.Some? && address.None? then None
      else if (address.None? && attempt.availableAddressCount != 0) || (address.Some? && attempt.availableAddressCount < 1) then None
      else if attempt.category.HttpResponse? && (!attempt.transportSuccess || attempt.httpStatus.None? || address.None?) then None
      else if !attempt.category.HttpResponse? && attempt.transportSuccess then None
      else if !attempt.category.HttpResponse? && !FailureWithHttpStatus(attempt.category) && attempt.httpStatus.Some? then None
      else if attempt.category.DnsFailure? && (attempt.httpStatus.Some? || address.Some? || attempt.availableAddressCount != 0) then None
      else if !attempt.category.DnsFailure? && QualifyingFailure(attempt.category) && (attempt.httpStatus.Some? || address.None?) then None
      else Some(ValidatedAttempt(attempt.attemptId, attempt.attemptedAt, attempt.category, attempt.transportSuccess,
                                 attempt.availableAddressCount, address, origin.value))
  }

  predicate AllValid(attempts: seq<ValidationAttempt>, evaluatedAt: int, lib: Libraries) {
    forall k :: 0 <= k < |attempts| ==> ValidateAttempt(attempts[k], evaluatedAt, lib).Some?
  }

  function ValidateAll(attempts: seq<ValidationAttempt>, evaluatedAt: int, lib: Libraries): (r: seq<ValidatedAttempt>)
    requires AllValid(attempts, evaluatedAt, lib)
    ensures |r| == |attempts|
    ensures forall k :: 0 <= k < |r| ==> r[k] == ValidateAttempt(attempts[k], evaluatedAt, lib).value
  {
    if attempts == [] then []
    else [ValidateAttempt(attempts[0], evaluatedAt, lib).value] + ValidateAll(attempts[1..], evaluatedAt, lib)
  }

  predicate IsSuffixOf(suffix: string, s: string) {
    |suffix| <= |s| && s[|s| - |suffix|..] == suffix
  }

  predicate Includes(s: string, part: string) {
    |part| <= |s| && (s[..|part|] == part || (|s| > 0 && Includes(s[1..], part)))
  }

  predicate CoverageIsValid(fqdn: string, coverage: Coverage) {
    match coverage.status
    case Uncovered => coverage.match_.None? && coverage.incompleteSourceIds == []
    case Incomplete => coverage.match_.None? && coverage.incompleteSourceIds != []
    case Covered =>
      coverage.match_.Some? && coverage.incompleteSourceIds == []
      && var rule := coverage.match_.value.rule;
         match coverage.match_.value.kind
         case ExactMatch => fqdn == rule
         case SuffixMatch => fqdn == rule || IsSuffixOf("." + rule, fqdn)
         case KeywordMatch => Includes(fqdn, rule)
  }

  predicate CandidateCovers(candidate: DomainCandidate, fqdn: string) {
    if candidate.selectedScope != Some(Site) then fqdn == candidate.fqdn
    else candidate.registrableSite.Some?
         && (fqdn == candidate.registrableSite.value || IsSuffixOf("." + candidate.registrableSite.value, fqdn))
  }

  function CurrentCandidate(evidence: CandidateEvidence, lib: Libraries): Option<DomainCandidate> {
    lib.deriveCandidate(evidence.fqdn, evidence.filterPolicy, if evidence.selectedScope.None? then Exact
        else evidence.selectedScope.value)
  }

  // ---------- Counting ----------

  function Filter<T>(s: seq<T>, p: T -> bool): (r: seq<T>)
    ensures |r| <= |s|
  {
    if s == [] then [] else if p(s[0]) then [s[0]] + Filter(s[1..], p) else Filter(s[1..], p)
  }

  lemma {:induction false} FilterMembers<T>(s: seq<T>, p: T -> bool)
    ensures forall x :: multiset(Filter(s, p))[x] == if p(x) then multiset(s)[x] else 0
    ensures forall x :: x in Filter(s, p) <==> x in s && p(x)
  {
    if s != [] {
      assert s == [s[0]] + s[1..];
      FilterMembers(s[1..], p);
    }
  }

  // ---------- What the decision is about ----------

  function WindowStart(policy: DecisionPolicy, evaluatedAt: int): int {
    evaluatedAt - policy.validationWindowHours * HOUR_MS
  }

  predicate DistinctIds(direct: seq<ValidatedAttempt>, proxy: seq<ValidatedAttempt>) {
    var all := direct + proxy;
    forall j, k :: 0 <= j < k < |all| ==> all[j].attemptId != all[k].attemptId
  }

  predicate Admissible(evidence: CandidateEvidence, policy: DecisionPolicy, evaluatedAt: int, lib: Libraries) {
    && ValidPolicy(policy) && ValidEvaluationTime(evaluatedAt, policy.validationWindowHours * HOUR_MS)
    && IsSafeCount(evidence.connectionCount)
    && lib.normalizeFqdn(evidence.fqdn) == Some(evidence.fqdn)
    && |evidence.direct| <= MAX_ATTEMPTS_PER_DIRECTION && |evidence.proxy| <= MAX_ATTEMPTS_PER_DIRECTION
    && CoverageIsValid(evidence.fqdn, evidence.coverage)
    && CurrentCandidate(evidence, lib).Some?
    && AllValid(evidence.direct, evaluatedAt, lib) && AllValid(evidence.proxy, evaluatedAt, lib)
    && DistinctIds(ValidateAll(evidence.direct, evaluatedAt, lib), ValidateAll(evidence.proxy, evaluatedAt, lib))
  }

  /** Admissible evidence after validation: what the reasons are judged on. */
  datatype Examined = Examined(direct: seq<ValidatedAttempt>, proxy: seq<ValidatedAttempt>, candidate: DomainCandidate,
      windowStart: int)

  function Examine(evidence: CandidateEvidence, policy: DecisionPolicy, evaluatedAt: int, lib: Libraries): (x: Examined)
    requires Admissible(evidence, policy, evaluatedAt, lib)
    ensures |x.direct| <= MAX_ATTEMPTS_PER_DIRECTION && |x.proxy| <= MAX_ATTEMPTS_PER_DIRECTION
    ensures forall a :: a in x.proxy ==> (a.category.HttpResponse? <==> a.transportSuccess)
  {
    Examined(ValidateAll(evidence.direct, evaluatedAt, lib), ValidateAll(evidence.proxy, evaluatedAt, lib),
             CurrentCandidate(evidence, lib).value, WindowStart(policy, evaluatedAt))
  }

  predicate DirectFailure(x: ValidatedAttempt, windowStart: int, candidate: DomainCandidate) {
    x.attemptedAt >= windowStart && QualifyingFailure(x.category) && CandidateCovers(candidate, x.finalOriginFqdn)
  }

  function DirectFailures(x: Examined): seq<ValidatedAttempt> {
    Filter(x.direct, (a: ValidatedAttempt) => DirectFailure(a, x.windowStart, x.candidate))
  }

  function ProxyAttempts(x: Examined): seq<ValidatedAttempt> {
    Filter(x.proxy, (a: ValidatedAttempt) => a.attemptedAt >= x.windowStart)
  }

  predicate IsHttpSuccess(x: ValidatedAttempt) {
    x.category.HttpResponse? && x.transportSuccess
  }

  predicate IsTransportFailure(x: ValidatedAttempt) {
    QualifyingFailure(x.category)
  }

  predicate IsUncertain(x: ValidatedAttempt) {
    !x.category.HttpResponse? && !QualifyingFailure(x.category)
  }

  predicate DiversityRequired(failures: seq<ValidatedAttempt>) {
    exists k :: 0 <= k < |failures| && failures[k].availableAddressCount > 1
  }

  /** Enough pairwise-spaced failures exist (on two addresses, if `diverse`). */
  ghost predicate Witnessed(failures: seq<ValidatedAttempt>, policy: DecisionPolicy, diverse: bool) {
    exists chosen :: Choice(failures, policy.minimumAttemptSpacingMinutes * MINUTE_MS, diverse, chosen)
      && |chosen| >= policy.directAttemptsRequired
  }

  predicate ScopeMismatch(evidence: CandidateEvidence, candidate: DomainCandidate) {
    !candidate.excluded
    && (evidence.selectedScope.None? || candidate.selectedScope != evidence.selectedScope || candidate.proposedRule != evidence.proposedRule)
  }

  /** When each reason is given for admissible evidence, without reference to the dynamic program. */
  ghost predicate Applies(reason: Reason, evidence: CandidateEvidence, policy: DecisionPolicy,
      candidate: DomainCandidate,
                          failures: seq<ValidatedAttempt>, proxy: seq<ValidatedAttempt>) {
    match reason
    case InvalidPolicy => false
    case InvalidEvidence => false
    case ObserverUnhealthy => !evidence.observationHealthy
    case InsufficientObservations => evidence.connectionCount < policy.minimumConnectionCount
    case CandidateExcluded => candidate.excluded
    case InvalidScope => ScopeMismatch(evidence, candidate)
    case CoverageIncomplete => evidence.coverage.status == Incomplete
    case AlreadyCovered => evidence.coverage.status == Covered
    case ProxyUnstable => exists a :: a in proxy && IsTransportFailure(a)
    case ProxyEvidenceUncertain => exists a :: a in proxy && IsUncertain(a)
    case InsufficientDirectFailures => |failures| < policy.directAttemptsRequired
    case DirectFailuresNotSpaced => |failures| >= policy.directAttemptsRequired && !Witnessed(failures, policy, false)
    case DirectAddressDiversityMissing => DiversityRequired(failures) && !Witnessed(failures, policy, true)
    case InsufficientProxySuccesses => |Filter(proxy, IsHttpSuccess)| < policy.minimumProxySuccesses
  }

  /** The evidence that confirms a candidate, stated on all validated attempts. */
  ghost predicate Confirms(evidence: CandidateEvidence, policy: DecisionPolicy, x: Examined) {
    && evidence.observationHealthy && evidence.connectionCount >= policy.minimumConnectionCount
    && evidence.coverage.status == Uncovered
    && !x.candidate.excluded && !ScopeMismatch(evidence, x.candidate)
    && (exists chosen :: ConfirmingFailures(x, policy, chosen))
    && (forall a :: a in x.proxy && a.attemptedAt >= x.windowStart ==> IsHttpSuccess(a))
    && |ProxyAttempts(x)| >= policy.minimumProxySuccesses
  }

  ghost predicate Confirmable(evidence: CandidateEvidence, policy: DecisionPolicy, evaluatedAt: int, lib: Libraries) {
    Admissible(evidence, policy, evaluatedAt, lib) && Confirms(evidence, policy,
        Examine(evidence, policy, evaluatedAt, lib))
  }

  /** In-window qualifying direct failures on covered hosts, pairwise spaced, enough of them, diverse where required. */
  ghost predicate ConfirmingFailures(x: Examined, policy: DecisionPolicy, chosen: multiset<ValidatedAttempt>) {
    && chosen <= multiset(x.direct)
    && (forall a :: a in chosen ==> DirectFailure(a, x.windowStart, x.candidate))
    && Spaced(chosen, policy.minimumAttemptSpacingMinutes * MINUTE_MS)
    && |chosen| >= policy.directAttemptsRequired
    && (AddressChoiceOffered(x) ==> Diverse(chosen))
  }

  ghost predicate AddressChoiceOffered(x: Examined) {
    exists a :: a in x.direct && DirectFailure(a, x.windowStart, x.candidate) && a.availableAddressCount > 1
  }

  // ---------- The contract of the shared report schema ----------

  predicate IsEmptyEvidence(e: Summary) {
    e.directQualifyingFailures == 0 && e.directSpacedFailures == 0 && !e.directAddressDiversityRequired
    && !e.directAddressDiversitySatisfied && e.proxyHttpSuccesses == 0 && e.proxyTransportFailures == 0
    && e.proxyUncertainFailures == 0
  }

  predicate CountsInBounds(e: Summary) {
    e.directQualifyingFailures <= 1_024 && e.directSpacedFailures <= 1_024 && e.proxyHttpSuccesses <= 1_024
    && e.proxyTransportFailures <= 1_024 && e.proxyUncertainFailures <= 1_024
  }

  predicate MeetsReportContract(d: CandidateDecision, evaluatedAt: int) {
    var exactTerminal :=
      d.status == Blocked && |d.reasons| == 1
      && (d.reasons[0] == InvalidPolicy || d.reasons[0] == InvalidEvidence || d.reasons[0] == AlreadyCovered)
      && IsEmptyEvidence(d.evidence);
    && 0 <= evaluatedAt <= MAX_DATE_MS
    && CountsInBounds(d.evidence)
    && |d.reasons| <= 32
    && (d.windowStart.Some? ==> 0 <= d.windowStart.value <= MAX_DATE_MS)
    && (forall j, k :: 0 <= j < k < |d.reasons| ==> d.reasons[j] != d.reasons[k])
    && d.status == StatusForReasons(d.reasons)
    && d.confidence == ConfidenceForStatus(d.status)
    && d.evidence.directSpacedFailures <= d.evidence.directQualifyingFailures
    && (d.windowStart.None? ==> exactTerminal)
    && (|d.reasons| > 0 && d.reasons[0] == InvalidPolicy ==> d.windowStart.None?)
    && (d.windowStart.Some? ==> HOUR_MS <= evaluatedAt - d.windowStart.value <= 24 * HOUR_MS)
    && (!exactTerminal && !d.evidence.directAddressDiversityRequired ==> d.evidence.directAddressDiversitySatisfied)
    && (d.status == Confirmed ==>
          && d.evidence.directQualifyingFailures >= 3 && d.evidence.directSpacedFailures >= 3
          && d.evidence.directAddressDiversitySatisfied && d.evidence.proxyHttpSuccesses >= 2
          && d.evidence.proxyTransportFailures == 0 && d.evidence.proxyUncertainFailures == 0)
  }

  // ---------- The decision ----------

  function Rank(reason: Reason): nat {
    match reason
    case InvalidPolicy => 0 case InvalidEvidence => 1 case ObserverUnhealthy => 2 case InsufficientObservations => 3
    case CandidateExcluded => 4 case InvalidScope => 5 case CoverageIncomplete => 6 case AlreadyCovered => 7
    case ProxyUnstable => 8 case ProxyEvidenceUncertain => 9 case InsufficientDirectFailures => 10
    case DirectFailuresNotSpaced => 11 case DirectAddressDiversityMissing => 12 case InsufficientProxySuccesses => 13
  }

  predicate Ranked(reasons: seq<Reason>) {
    forall j, k :: 0 <= j < k < |reasons| ==> Rank(reasons[j]) < Rank(reasons[k])
  }

  method PushIf(reasons: seq<Reason>, condition: bool, reason: Reason) returns (r: seq<Reason>)
    requires Ranked(reasons) && forall x :: x in reasons ==> Rank(x) < Rank(reason)
    ensures Ranked(r) && forall x :: x in r ==> Rank(x) <= Rank(reason)
    ensures forall x :: x in r <==> x in reasons || (condition && x == reason)
  {
    r := if condition then reasons + [reason] else reasons;
    assert forall k :: 0 <= k < |reasons| ==> reasons[k] in reasons;
  }

  /** The summary counts what it names, and its two spacing verdicts are the existence of witnesses. */
  ghost predicate SummaryFits(summary: Summary, failures: seq<ValidatedAttempt>, proxy: seq<ValidatedAttempt>,
      policy: DecisionPolicy) {
    && summary.directQualifyingFailures == |failures|
    && IsMaximum(failures, policy.minimumAttemptSpacingMinutes * MINUTE_MS, false, summary.directSpacedFailures)
    && summary.directSpacedFailures <= |failures|
    && (summary.directSpacedFailures >= policy.directAttemptsRequired <==> Witnessed(failures, policy, false))
    && (summary.directAddressDiversityRequired <==> DiversityRequired(failures))
    && (summary.directAddressDiversitySatisfied <==> (DiversityRequired(failures) ==>
      Witnessed(failures, policy, true)))
    && summary.proxyHttpSuccesses == |Filter(proxy, IsHttpSuccess)|
    && summary.proxyTransportFailures == |Filter(proxy, IsTransportFailure)|
    && summary.proxyUncertainFailures == |Filter(proxy, IsUncertain)|
  }

  /** The evidence summary, with both maxima of the dynamic program. */
  method Summarize(failures: seq<ValidatedAttempt>, proxy: seq<ValidatedAttempt>, policy: DecisionPolicy,
      idPrecedes: (string, string) -> bool)
    returns (summary: Summary)
    requires ValidPolicy(policy)
    ensures SummaryFits(summary, failures, proxy, policy)
  {
    var spacing := policy.minimumAttemptSpacingMinutes * MINUTE_MS;
    var spaced := EvaluateSpacedEvidence(failures, spacing, idPrecedes);
    var required := DiversityRequired(failures);
    var satisfied := !required || spaced.maximumDiverseCount >= policy.directAttemptsRequired;
    summary := Summary(|failures|, spaced.maximumCount, required, satisfied,
                       |Filter(proxy, IsHttpSuccess)|, |Filter(proxy, IsTransportFailure)|,
                       |Filter(proxy, IsUncertain)|);
  }

  predicate CandidateReasonsMatch(reasons: seq<Reason>, evidence: CandidateEvidence, policy: DecisionPolicy,
      candidate: DomainCandidate) {
    && (ObserverUnhealthy in reasons <==> !evidence.observationHealthy)
    && (InsufficientObservations in reasons <==> evidence.connectionCount < policy.minimumConnectionCount)
    && (CandidateExcluded in reasons <==> candidate.excluded)
    && (InvalidScope in reasons <==> ScopeMismatch(evidence, candidate))
    && (CoverageIncomplete in reasons <==> evidence.coverage.status == Incomplete)
    && (AlreadyCovered in reasons <==> evidence.coverage.status == Covered)
  }

  predicate ProbeReasonsMatch(reasons: seq<Reason>, policy: DecisionPolicy, summary: Summary) {
    && (ProxyUnstable in reasons <==> summary.proxyTransportFailures > policy.maximumProxyTransportFailures)
    && (ProxyEvidenceUncertain in reasons <==> summary.proxyUncertainFailures > 0)
    && (InsufficientDirectFailures in reasons <==> summary.directQualifyingFailures < policy.directAttemptsRequired)
    && (DirectFailuresNotSpaced in reasons <==>
          summary.directQualifyingFailures >= policy.directAttemptsRequired > summary.directSpacedFailures)
    && (DirectAddressDiversityMissing in reasons <==> !summary.directAddressDiversitySatisfied)
    && (InsufficientProxySuccesses in reasons <==> summary.proxyHttpSuccesses < policy.minimumProxySuccesses)
  }

  predicate ReasonsMatch(reasons: seq<Reason>, evidence: CandidateEvidence, policy: DecisionPolicy,
      candidate: DomainCandidate, summary: Summary) {
    && Ranked(reasons) && InvalidPolicy !in reasons && InvalidEvidence !in reasons
    && CandidateReasonsMatch(reasons, evidence, policy, candidate)
    && ProbeReasonsMatch(reasons, policy, summary)
  }

  method PushCandidateReasons(evidence: CandidateEvidence, policy: DecisionPolicy,
      candidate: DomainCandidate) returns (reasons: seq<Reason>)
    ensures Ranked(reasons) && forall x :: x in reasons ==> 2 <= Rank(x) < 8
    ensures CandidateReasonsMatch(reasons, evidence, policy, candidate)
  {
    reasons := PushIf([], !evidence.observationHealthy, ObserverUnhealthy);
    reasons := PushIf(reasons, evidence.connectionCount < policy.minimumConnectionCount, InsufficientObservations);
    reasons := PushIf(reasons, candidate.excluded, CandidateExcluded);
    reasons := PushIf(reasons, ScopeMismatch(evidence, candidate), InvalidScope);
    reasons := PushIf(reasons, evidence.coverage.status == Incomplete, CoverageIncomplete);
    reasons := PushIf(reasons, evidence.coverage.status == Covered, AlreadyCovered);
  }

  method PushProbeReasons(initial: seq<Reason>, policy: DecisionPolicy, summary: Summary) returns (reasons: seq<Reason>)
    requires Ranked(initial) && forall x :: x in initial ==> Rank(x) < 8
    ensures Ranked(reasons) && forall x :: x in reasons && Rank(x) < 8 <==> x in initial
    ensures ProbeReasonsMatch(reasons, policy, summary)
  {
    reasons := PushIf(initial, summary.proxyTransportFailures > policy.maximumProxyTransportFailures, ProxyUnstable);
    reasons := PushIf(reasons, summary.proxyUncertainFailures > 0, ProxyEvidenceUncertain);
    if summary.directQualifyingFailures < policy.directAttemptsRequired {
      reasons := PushIf(reasons, true, InsufficientDirectFailures);
    } else {
      reasons := PushIf(reasons, summary.directSpacedFailures < policy.directAttemptsRequired, DirectFailuresNotSpaced);
    }
    reasons := PushIf(reasons, !summary.directAddressDiversitySatisfied, DirectAddressDiversityMissing);
    reasons := PushIf(reasons, summary.proxyHttpSuccesses < policy.minimumProxySuccesses, InsufficientProxySuccesses);
  }

  lemma {:induction false} RankedIsShort(reasons: seq<Reason>)
    requires Ranked(reasons)
    ensures |reasons| <= 14
  {
    if |reasons| > 14 {
      RankAtLeast(reasons, 14);
    }
  }

  lemma {:induction false} RankAtLeast(reasons: seq<Reason>, k: nat)
    requires Ranked(reasons) && k < |reasons|
    ensures Rank(reasons[k]) >= k
  {
    if k > 0 {
      RankAtLeast(reasons, k - 1);
    }
  }

  lemma ReasonsApply(evidence: CandidateEvidence, policy: DecisionPolicy, candidate: DomainCandidate,
                     failures: seq<ValidatedAttempt>, proxy: seq<ValidatedAttempt>, summary: Summary,
                     reasons: seq<Reason>)
    requires ValidPolicy(policy) && SummaryFits(summary, failures, proxy, policy)
    requires ReasonsMatch(reasons, evidence, policy, candidate, summary)
    ensures forall r :: r in reasons <==> Applies(r, evidence, policy, candidate, failures, proxy)
  {
    forall r ensures r in reasons <==> Applies(r, evidence, policy, candidate, failures, proxy) {
      ReasonApplies(r, evidence, policy, candidate, failures, proxy, summary, reasons);
    }
  }

  lemma ReasonApplies(r: Reason, evidence: CandidateEvidence, policy: DecisionPolicy, candidate: DomainCandidate,
                      failures: seq<ValidatedAttempt>, proxy: seq<ValidatedAttempt>, summary: Summary,
                      reasons: seq<Reason>)
    requires ValidPolicy(policy) && SummaryFits(summary, failures, proxy, policy)
    requires ReasonsMatch(reasons, evidence, policy, candidate, summary)
    ensures r in reasons <==> Applies(r, evidence, policy, candidate, failures, proxy)
  {
    match r {
      case ProxyUnstable => FilterFindsOne(proxy, IsTransportFailure);
      case ProxyEvidenceUncertain => FilterFindsOne(proxy, IsUncertain);
      case _ =>
    }
  }

  lemma FilterFindsOne<T>(s: seq<T>, p: T -> bool)
    ensures |Filter(s, p)| > 0 <==> exists x :: x in s && p(x)
  {
    FilterMembers(s, p);
    if |Filter(s, p)| > 0 {
      assert Filter(s, p)[0] in Filter(s, p);
    }
  }

  lemma {:induction false} FilterKeepsAll<T>(s: seq<T>, p: T -> bool)
    requires forall x :: x in s ==> p(x)
    ensures Filter(s, p) == s
  {
    if s != [] {
      FilterKeepsAll(s[1..], p);
    }
  }

  /** Witnesses among the filtered failures are witnesses among all validated attempts, and conversely. */
  lemma WitnessesAgree(x: Examined, policy: DecisionPolicy)
    ensures (exists chosen :: ConfirmingFailures(x, policy, chosen)) <==> Witnessed(DirectFailures(x), policy,
        DiversityRequired(DirectFailures(x)))
  {
    var failures := DirectFailures(x);
    var spacing := policy.minimumAttemptSpacingMinutes * MINUTE_MS;
    FilterMembers(x.direct, (a: ValidatedAttempt) => DirectFailure(a, x.windowStart, x.candidate));
    RequiredMeans(failures);
    var required := DiversityRequired(failures);
    assert required <==> AddressChoiceOffered(x);
    if chosen :| ConfirmingFailures(x, policy, chosen) {
      Within(x, chosen);
      assert Choice(failures, spacing, required, chosen);
    }
    if Witnessed(failures, policy, required) {
      var chosen :| Choice(failures, spacing, required, chosen) && |chosen| >= policy.directAttemptsRequired;
      Within(x, chosen);
      assert ConfirmingFailures(x, policy, chosen);
    }
  }

  lemma RequiredMeans(failures: seq<ValidatedAttempt>)
    ensures DiversityRequired(failures) <==> exists x :: x in failures && x.availableAddressCount > 1
  {
    if DiversityRequired(failures) {
      var k :| 0 <= k < |failures| && failures[k].availableAddressCount > 1;
      assert failures[k] in failures;
    }
  }

  lemma Within(x: Examined, chosen: multiset<ValidatedAttempt>)
    ensures chosen <= multiset(DirectFailures(x)) <==>
      chosen <= multiset(x.direct) && forall a :: a in chosen ==> DirectFailure(a, x.windowStart, x.candidate)
  {
    FilterMembers(x.direct, (a: ValidatedAttempt) => DirectFailure(a, x.windowStart, x.candidate));
  }

  ghost predicate NoObjection(evidence: CandidateEvidence, policy: DecisionPolicy, candidate: DomainCandidate,
                              failures: seq<ValidatedAttempt>, proxy: seq<ValidatedAttempt>) {
    && evidence.observationHealthy && evidence.connectionCount >= policy.minimumConnectionCount
    && evidence.coverage.status == Uncovered && !candidate.excluded && !ScopeMismatch(evidence, candidate)
    && Witnessed(failures, policy, DiversityRequired(failures))
    && (forall a :: a in proxy ==> !IsTransportFailure(a) && !IsUncertain(a))
    && |Filter(proxy, IsHttpSuccess)| >= policy.minimumProxySuccesses
  }

  lemma NoReasonIffNoObjection(evidence: CandidateEvidence, policy: DecisionPolicy, candidate: DomainCandidate,
                               failures: seq<ValidatedAttempt>, proxy: seq<ValidatedAttempt>)
    ensures (forall r :: !Applies(r, evidence, policy, candidate, failures, proxy))
      <==> NoObjection(evidence, policy, candidate, failures, proxy)
  {
    WitnessBounds(failures, policy);
    if forall r :: !Applies(r, evidence, policy, candidate, failures, proxy) {
      assert !Applies(ObserverUnhealthy, evidence, policy, candidate, failures, proxy);
      assert !Applies(InsufficientObservations, evidence, policy, candidate, failures, proxy);
      assert !Applies(CandidateExcluded, evidence, policy, candidate, failures, proxy);
      assert !Applies(InvalidScope, evidence, policy, candidate, failures, proxy);
      assert !Applies(CoverageIncomplete, evidence, policy, candidate, failures, proxy);
      assert !Applies(AlreadyCovered, evidence, policy, candidate, failures, proxy);
      assert !Applies(ProxyUnstable, evidence, policy, candidate, failures, proxy);
      assert !Applies(ProxyEvidenceUncertain, evidence, policy, candidate, failures, proxy);
      assert !Applies(InsufficientDirectFailures, evidence, policy, candidate, failures, proxy);
      assert !Applies(DirectFailuresNotSpaced, evidence, policy, candidate, failures, proxy);
      assert !Applies(DirectAddressDiversityMissing, evidence, policy, candidate, failures, proxy);
      assert !Applies(InsufficientProxySuccesses, evidence, policy, candidate, failures, proxy);
    }
  }

  lemma ConfirmsIffNoObjection(evidence: CandidateEvidence, policy: DecisionPolicy, x: Examined)
    requires forall a :: a in x.proxy ==> (a.category.HttpResponse? <==> a.transportSuccess)
    ensures Confirms(evidence, policy, x) <==> NoObjection(evidence, policy, x.candidate, DirectFailures(x),
        ProxyAttempts(x))
  {
    WitnessesAgree(x, policy);
    ProxyVerdicts(x, policy);
  }

  lemma WitnessBounds(failures: seq<ValidatedAttempt>, policy: DecisionPolicy)
    ensures Witnessed(failures, policy, true) ==> Witnessed(failures, policy, false)
    ensures Witnessed(failures, policy, false) ==> |failures| >= policy.directAttemptsRequired
  {
    var spacing := policy.minimumAttemptSpacingMinutes * MINUTE_MS;
    if Witnessed(failures, policy, true) {
      var chosen :| Choice(failures, spacing, true, chosen) && |chosen| >= policy.directAttemptsRequired;
      assert Choice(failures, spacing, false, chosen);
    }
    if Witnessed(failures, policy, false) {
      var chosen :| Choice(failures, spacing, false, chosen) && |chosen| >= policy.directAttemptsRequired;
      assert multiset(failures) == chosen + (multiset(failures) - chosen);
    }
  }

  /** Proxy attempts raise no reason exactly when all of them in the window are successes and there are enough. */
  lemma ProxyVerdicts(x: Examined, policy: DecisionPolicy)
    requires forall a :: a in x.proxy ==> (a.category.HttpResponse? <==> a.transportSuccess)
    ensures var inWindow := ProxyAttempts(x);
      ((forall a :: a in inWindow ==> !IsTransportFailure(a) && !IsUncertain(a)) && |Filter(inWindow, IsHttpSuccess)| >= policy.minimumProxySuccesses)
      <==> ((forall a :: a in x.proxy && a.attemptedAt >= x.windowStart ==> IsHttpSuccess(a)) && |inWindow| >= policy.minimumProxySuccesses)
  {
    var inWindow := ProxyAttempts(x);
    FilterMembers(x.proxy, (a: ValidatedAttempt) => a.attemptedAt >= x.windowStart);
    if forall a :: a in inWindow ==> IsHttpSuccess(a) {
      FilterKeepsAll(inWindow, IsHttpSuccess);
    }
  }

  lemma ConfirmedMeetsContract(reasons: seq<Reason>, summary: Summary, failures: seq<ValidatedAttempt>,
      proxy: seq<ValidatedAttempt>,
                               evidence: CandidateEvidence, candidate: DomainCandidate, policy: DecisionPolicy,
                               evaluatedAt: int)
    requires ValidPolicy(policy) && ValidEvaluationTime(evaluatedAt, policy.validationWindowHours * HOUR_MS)
    requires SummaryFits(summary, failures, proxy, policy) && |failures| <= MAX_ATTEMPTS_PER_DIRECTION
    requires |proxy| <= MAX_ATTEMPTS_PER_DIRECTION
    requires |reasons| <= 14 && ReasonsMatch(reasons, evidence, policy, candidate, summary)
    ensures MeetsReportContract(Decide(reasons, Some(WindowStart(policy, evaluatedAt)), summary), evaluatedAt)
    ensures Decide(reasons, Some(WindowStart(policy, evaluatedAt)), summary).status == Confirmed <==> reasons == []
  {
    if |reasons| > 0 {
      assert reasons[0] in reasons;
    }
  }

  /** The part of the decision reached by admissible evidence. */
  method DecideExamined(evidence: CandidateEvidence, policy: DecisionPolicy, evaluatedAt: int, x: Examined,
      idPrecedes: (string, string) -> bool)
    returns (decision: CandidateDecision)
    requires ValidPolicy(policy) && ValidEvaluationTime(evaluatedAt, policy.validationWindowHours * HOUR_MS)
    requires |x.direct| <= MAX_ATTEMPTS_PER_DIRECTION && |x.proxy| <= MAX_ATTEMPTS_PER_DIRECTION
    ensures Ranked(decision.reasons)
    ensures forall r :: r in decision.reasons <==> Applies(r, evidence, policy, x.candidate, DirectFailures(x),
        ProxyAttempts(x))
    ensures decision.windowStart == Some(WindowStart(policy, evaluatedAt))
    ensures SummaryFits(decision.evidence, DirectFailures(x), ProxyAttempts(x), policy)
    ensures MeetsReportContract(decision, evaluatedAt)
    ensures decision.status == Confirmed <==> decision.reasons == []
  {
    var failures, proxy := DirectFailures(x), ProxyAttempts(x);
    var summary := Summarize(failures, proxy, policy, idPrecedes);
    var reasons := PushCandidateReasons(evidence, policy, x.candidate);
    reasons := PushProbeReasons(reasons, policy, summary);
    RankedIsShort(reasons);
    ReasonsApply(evidence, policy, x.candidate, failures, proxy, summary, reasons);
    ConfirmedMeetsContract(reasons, summary, failures, proxy, evidence, x.candidate, policy, evaluatedAt);
    decision := Decide(reasons, Some(WindowStart(policy, evaluatedAt)), summary);
  }

  method DecideCandidate(evidence: CandidateEvidence, policy: DecisionPolicy, evaluatedAt: int, lib: Libraries)
    returns (decision: CandidateDecision)
    ensures !ValidPolicy(policy) ==> decision == Decide([InvalidPolicy], None, EMPTY_SUMMARY)
    ensures ValidPolicy(policy) && !Admissible(evidence, policy, evaluatedAt, lib) ==>
      && decision.reasons == [InvalidEvidence] && decision.evidence == EMPTY_SUMMARY
      && decision.windowStart == if ValidEvaluationTime(evaluatedAt, policy.validationWindowHours * HOUR_MS)
                                 then Some(WindowStart(policy, evaluatedAt)) else None
    ensures Admissible(evidence, policy, evaluatedAt, lib) ==>
      var x := Examine(evidence, policy, evaluatedAt, lib);
      && Ranked(decision.reasons)
      && (forall r :: r in decision.reasons <==> Applies(r, evidence, policy, x.candidate, DirectFailures(x),
          ProxyAttempts(x)))
      && decision.windowStart == Some(WindowStart(policy, evaluatedAt))
      && SummaryFits(decision.evidence, DirectFailures(x), ProxyAttempts(x), policy)
    ensures decision.status == Confirmed <==> Confirmable(evidence, policy, evaluatedAt, lib)
    ensures 0 <= evaluatedAt <= MAX_DATE_MS ==> MeetsReportContract(decision, evaluatedAt)
  {
    if !ValidPolicy(policy) {
      decision := Decide([InvalidPolicy], None, EMPTY_SUMMARY);
      assert Blocking(decision.reasons[0]);
      return;
    }
    var windowMs := policy.validationWindowHours * HOUR_MS;
    if !ValidEvaluationTime(evaluatedAt, windowMs) {
      decision := Decide([InvalidEvidence], None, EMPTY_SUMMARY);
      assert Blocking(decision.reasons[0]);
      return;
    }
    var windowStart := evaluatedAt - windowMs;
    var currentCandidate := CurrentCandidate(evidence, lib);
    if !IsSafeCount(evidence.connectionCount) || lib.normalizeFqdn(evidence.fqdn) != Some(evidence.fqdn)
       || |evidence.direct| > MAX_ATTEMPTS_PER_DIRECTION || |evidence.proxy| > MAX_ATTEMPTS_PER_DIRECTION
       || !CoverageIsValid(evidence.fqdn, evidence.coverage)
       || currentCandidate.None?
       || !AllValid(evidence.direct, evaluatedAt, lib) || !AllValid(evidence.proxy, evaluatedAt, lib)
       || !DistinctIds(ValidateAll(evidence.direct, evaluatedAt, lib), ValidateAll(evidence.proxy, evaluatedAt, lib))
    {
      decision := Decide([InvalidEvidence], Some(windowStart), EMPTY_SUMMARY);
      assert Blocking(decision.reasons[0]);
      return;
    }
    var x := Examine(evidence, policy, evaluatedAt, lib);
    decision := DecideExamined(evidence, policy, evaluatedAt, x, lib.idPrecedes);
    NoReasonIffNoObjection(evidence, policy, x.candidate, DirectFailures(x), ProxyAttempts(x));
    ConfirmsIffNoObjection(evidence, policy, x);
    if decision.reasons != [] {
      assert decision.reasons[0] in decision.reasons;
    }
  }
}
