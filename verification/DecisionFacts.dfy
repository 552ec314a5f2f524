/**
 What the decision looks at, in plain terms: categories, hosts, label boundaries and numbers. Each check that the
 decision shares with its specification is shown equivalent to what it stands for.
 */
module DecisionFacts {
  import opened Wrappers
  import opened SpacedEvidence
  import opened Decision

  // ---------- Hosts ----------

  /** The host is the domain or lies below it, at a label boundary. */
  ghost predicate IsWithin(host: string, domain: string) {
    host == domain || exists labels :: host == labels + "." + domain
  }

  /** An exact candidate is its own host only; a site candidate is everything within its registrable site. */
  ghost predicate IsHostOf(candidate: DomainCandidate, host: string) {
    if candidate.selectedScope == Some(Site) then
      candidate.registrableSite.Some? && IsWithin(host, candidate.registrableSite.value)
    else host == candidate.fqdn
  }

  ghost predicate Contains(s: string, part: string) {
    exists before, after :: s == before + part + after
  }

  lemma SuffixIff(suffix: string, s: string)
    ensures IsSuffixOf(suffix, s) <==> exists front :: s == front + suffix
  {
    if IsSuffixOf(suffix, s) {
      assert s == s[..|s| - |suffix|] + suffix;
    }
  }

  lemma DottedIff(domain: string, host: string)
    ensures IsSuffixOf("." + domain, host) <==> exists labels :: host == labels + "." + domain
  {
    SuffixIff("." + domain, host);
    forall labels ensures labels + ("." + domain) == labels + "." + domain {
    }
  }

  lemma HostIff(candidate: DomainCandidate, host: string)
    ensures CandidateCovers(candidate, host) <==> IsHostOf(candidate, host)
  {
    if candidate.registrableSite.Some? {
      DottedIff(candidate.registrableSite.value, host);
    }
  }

  /** Where a part lies: at the start, or within the rest. */
  lemma PartLies(s: string, before: string, part: string, after: string)
    requires s == before + part + after
    ensures before == "" ==> |part| <= |s| && s[..|part|] == part
    ensures before != "" ==> s != "" && s[1..] == before[1..] + part + after
  {
    if before == "" {
      assert s == part + after;
    }
  }

  lemma ContainsInRest(s: string, part: string)
    requires s != "" && Contains(s[1..], part)
    ensures Contains(s, part)
  {
    var before, after :| s[1..] == before + part + after;
    assert s == [s[0]] + s[1..];
    assert s == ([s[0]] + before) + part + after;
  }

  lemma {:induction false} IncludesIff(s: string, part: string)
    ensures Includes(s, part) <==> Contains(s, part)
    decreases |s|
  {
    hide Contains;
    if |part| <= |s| && s[..|part|] == part {
      StartsWithPart(s, part);
    } else {
      if s != "" {
        IncludesIff(s[1..], part);
        if Contains(s[1..], part) {
          ContainsInRest(s, part);
        }
      }
      if Contains(s, part) {
        ContainedInRest(s, part);
      }
    }
  }

  lemma StartsWithPart(s: string, part: string)
    requires |part| <= |s| && s[..|part|] == part
    ensures Contains(s, part)
  {
    assert s == [] + part + s[|part|..];
  }

  lemma ContainedInRest(s: string, part: string)
    requires Contains(s, part) && !(|part| <= |s| && s[..|part|] == part)
    ensures s != "" && Contains(s[1..], part)
  {
    var before, after :| s == before + part + after;
    PartLies(s, before, part, after);
  }

  // ---------- Categories and attempts ----------

  /** The connection failed in transport, before any HTTP answer. */
  predicate IsTransportCategory(category: ProbeCategory) {
    category in {ConnectTimeout, TlsTimeout, TlsHandshakeReset, ConnectionResetBeforeHttp, DnsFailure}
  }

  /** What an attempt of its category must carry. */
  predicate FitsCategory(attempt: ValidationAttempt) {
    match attempt.category
    case HttpResponse => attempt.transportSuccess && attempt.httpStatus.Some? && attempt.resolvedAddress.Some?
    case DnsFailure => !attempt.transportSuccess && attempt.httpStatus.None? && attempt.resolvedAddress.None?
    case ConnectTimeout => !attempt.transportSuccess && attempt.httpStatus.None? && attempt.resolvedAddress.Some?
    case TlsTimeout => !attempt.transportSuccess && attempt.httpStatus.None? && attempt.resolvedAddress.Some?
    case TlsHandshakeReset => !attempt.transportSuccess && attempt.httpStatus.None? && attempt.resolvedAddress.Some?
    case ConnectionResetBeforeHttp => !attempt.transportSuccess && attempt.httpStatus.None? && attempt.resolvedAddress.Some?
    case UnsafeRedirect => !attempt.transportSuccess
    case RedirectLimit => !attempt.transportSuccess
    case _ => !attempt.transportSuccess && attempt.httpStatus.None?
  }

  /** An identifier, a time that is not in the future, an HTTPS origin, and an address exactly when some were available. */
  predicate AttemptStands(attempt: ValidationAttempt, evaluatedAt: int, lib: Libraries) {
    && IsAttemptId(attempt.attemptId)
    && 0 <= attempt.attemptedAt <= 9_007_199_254_740_991 && attempt.attemptedAt <= evaluatedAt
    && (attempt.httpStatus.Some? ==> 100 <= attempt.httpStatus.value <= 599)
    && 0 <= attempt.availableAddressCount <= 1_024
    && attempt.finalOrigin.Some? && lib.originFqdn(attempt.finalOrigin.value).Some?
    && (attempt.resolvedAddress.Some? ==> lib.canonicalPublicAddress(attempt.resolvedAddress.value).Some?)
    && (attempt.resolvedAddress.Some? <==> attempt.availableAddressCount >= 1)
    && FitsCategory(attempt)
  }

  /** An attempt is taken exactly when it stands, and then as it is, with its canonical address and the host it ended at. */
  lemma AttemptIff(attempt: ValidationAttempt, evaluatedAt: int, lib: Libraries)
    ensures ValidateAttempt(attempt, evaluatedAt, lib).Some? <==> AttemptStands(attempt, evaluatedAt, lib)
    ensures AttemptStands(attempt, evaluatedAt, lib) ==>
      ValidateAttempt(attempt, evaluatedAt, lib).value == ValidatedAttempt(
        attempt.attemptId, attempt.attemptedAt, attempt.category, attempt.transportSuccess, attempt.availableAddressCount,
        if attempt.resolvedAddress.Some? then lib.canonicalPublicAddress(attempt.resolvedAddress.value) else None,
        lib.originFqdn(attempt.finalOrigin.value).value)
  {
    hide IsAttemptId;
  }

  // ---------- Coverage ----------

  /** What a coverage result says must fit the host it is about. */
  ghost predicate CoverageStands(host: string, coverage: Coverage) {
    match coverage.status
    case Uncovered => coverage.match_ == None && |coverage.incompleteSourceIds| == 0
    case Incomplete => coverage.match_ == None && |coverage.incompleteSourceIds| > 0
    case Covered =>
      coverage.match_.Some? && |coverage.incompleteSourceIds| == 0 &&
      match coverage.match_.value.kind
      case ExactMatch => host == coverage.match_.value.rule
      case SuffixMatch => IsWithin(host, coverage.match_.value.rule)
      case KeywordMatch => Contains(host, coverage.match_.value.rule)
  }

  lemma CoverageIff(host: string, coverage: Coverage)
    ensures CoverageIsValid(host, coverage) <==> CoverageStands(host, coverage)
  {
    hide Contains, Includes;
    if coverage.match_.Some? {
      DottedIff(coverage.match_.value.rule, host);
      IncludesIff(host, coverage.match_.value.rule);
    }
  }

  // ---------- What counts ----------

  /** A direct attempt counts when it failed in transport, within the window, at a host of the candidate. */
  ghost predicate Counts(attempt: ValidatedAttempt, policy: DecisionPolicy, evaluatedAt: int,
      candidate: DomainCandidate) {
    && attempt.attemptedAt >= evaluatedAt - policy.validationWindowHours * 3_600_000
    && IsTransportCategory(attempt.category) && IsHostOf(candidate, attempt.finalOriginFqdn)
  }

  lemma CountsIff(attempt: ValidatedAttempt, policy: DecisionPolicy, evaluatedAt: int, candidate: DomainCandidate)
    ensures DirectFailure(attempt, WindowStart(policy, evaluatedAt), candidate) <==>
      Counts(attempt, policy, evaluatedAt, candidate)
  {
    hide CandidateCovers, IsHostOf;
    HostIff(candidate, attempt.finalOriginFqdn);
  }

  /** The scope and rule of the evidence are those that the candidate is derived with now. */
  predicate IsUpToDate(evidence: CandidateEvidence, candidate: DomainCandidate) {
    && !candidate.excluded && evidence.selectedScope.Some?
    && candidate.selectedScope == evidence.selectedScope && candidate.proposedRule == evidence.proposedRule
  }

  /** Enough failures that count, pairwise spaced, on two addresses if one that counts had a choice of them. */
  ghost predicate HasWitnesses(x: Examined, policy: DecisionPolicy, evaluatedAt: int,
      chosen: multiset<ValidatedAttempt>) {
    && chosen <= multiset(x.direct) && |chosen| >= policy.directAttemptsRequired
    && (forall a :: a in chosen ==> Counts(a, policy, evaluatedAt, x.candidate))
    && (forall a, b :: a in chosen && b in chosen && (a != b || chosen[a] > 1) ==>
          a.attemptedAt - b.attemptedAt >= policy.minimumAttemptSpacingMinutes * 60_000
          || b.attemptedAt - a.attemptedAt >= policy.minimumAttemptSpacingMinutes * 60_000)
    && ((exists a :: a in x.direct && Counts(a, policy, evaluatedAt, x.candidate) && a.availableAddressCount > 1) ==>
          exists a, b :: a in chosen && b in chosen && a.canonicalAddress.Some? && b.canonicalAddress.Some?
            && a.canonicalAddress.value != b.canonicalAddress.value)
  }

  lemma WitnessesIff(x: Examined, policy: DecisionPolicy, evaluatedAt: int, chosen: multiset<ValidatedAttempt>)
    requires x.windowStart == WindowStart(policy, evaluatedAt) && policy.minimumAttemptSpacingMinutes >= 0
    ensures ConfirmingFailures(x, policy, chosen) <==> HasWitnesses(x, policy, evaluatedAt, chosen)
  {
    hide DirectFailure, Counts;
    forall a: ValidatedAttempt ensures DirectFailure(a, x.windowStart, x.candidate) <==>
        Counts(a, policy, evaluatedAt, x.candidate) {
      CountsIff(a, policy, evaluatedAt, x.candidate);
    }
  }

  /** What a confirmation says, in plain terms. */
  ghost predicate IsConfirmed(evidence: CandidateEvidence, policy: DecisionPolicy, evaluatedAt: int, x: Examined) {
    && evidence.observationHealthy && evidence.connectionCount >= policy.minimumConnectionCount
    && evidence.coverage.status == Uncovered && IsUpToDate(evidence, x.candidate)
    && (exists chosen :: HasWitnesses(x, policy, evaluatedAt, chosen))
    && (forall a :: a in x.proxy && a.attemptedAt >= evaluatedAt - policy.validationWindowHours * 3_600_000 ==>
          a.category == HttpResponse && a.transportSuccess)
    && |Filter(x.proxy, (a: ValidatedAttempt) => a.attemptedAt >= evaluatedAt - policy.validationWindowHours * 3_600_000)|
         >= policy.minimumProxySuccesses
  }

  /** The decision confirms exactly admissible evidence for which this holds. */
  lemma ConfirmableIff(evidence: CandidateEvidence, policy: DecisionPolicy, evaluatedAt: int, lib: Libraries)
    ensures Confirmable(evidence, policy, evaluatedAt, lib) <==>
      Admissible(evidence, policy, evaluatedAt, lib)
      && IsConfirmed(evidence, policy, evaluatedAt, Examine(evidence, policy, evaluatedAt, lib))
  {
    hide ConfirmingFailures, HasWitnesses, AllValid, CoverageIsValid, DistinctIds;
    if Admissible(evidence, policy, evaluatedAt, lib) {
      var x := Examine(evidence, policy, evaluatedAt, lib);
      forall chosen ensures ConfirmingFailures(x, policy, chosen) <==> HasWitnesses(x, policy, evaluatedAt, chosen) {
        WitnessesIff(x, policy, evaluatedAt, chosen);
      }
      SameProxies(x, policy, evaluatedAt);
    }
  }

  lemma SameProxies(x: Examined, policy: DecisionPolicy, evaluatedAt: int)
    requires x.windowStart == WindowStart(policy, evaluatedAt)
    ensures ProxyAttempts(x) ==
      Filter(x.proxy, (a: ValidatedAttempt) => a.attemptedAt >= evaluatedAt - policy.validationWindowHours * 3_600_000)
  {
    FilterAlike(x.proxy, (a: ValidatedAttempt) => a.attemptedAt >= x.windowStart,
      (a: ValidatedAttempt) => a.attemptedAt >= evaluatedAt - policy.validationWindowHours * 3_600_000);
  }

  lemma {:induction false} FilterAlike<T>(s: seq<T>, p: T -> bool, q: T -> bool)
    requires forall x :: p(x) <==> q(x)
    ensures Filter(s, p) == Filter(s, q)
  {
    if s != [] {
      FilterAlike(s[1..], p, q);
    }
  }

  // ---------- The reasons ----------

  predicate InWindow(attempt: ValidatedAttempt, policy: DecisionPolicy, evaluatedAt: int) {
    attempt.attemptedAt >= evaluatedAt - policy.validationWindowHours * 3_600_000
  }

  lemma ProxyInWindow(x: Examined, policy: DecisionPolicy, evaluatedAt: int)
    requires x.windowStart == WindowStart(policy, evaluatedAt)
    ensures forall a :: a in ProxyAttempts(x) <==> a in x.proxy && InWindow(a, policy, evaluatedAt)
  {
    FilterMembers(x.proxy, (a: ValidatedAttempt) => a.attemptedAt >= x.windowStart);
  }

  /** Which proxy attempts in the window make the proxy unstable, and which leave it uncertain. */
  lemma ProxyReasonsIff(evidence: CandidateEvidence, policy: DecisionPolicy, evaluatedAt: int, x: Examined)
    requires x.windowStart == WindowStart(policy, evaluatedAt)
    ensures Applies(ProxyUnstable, evidence, policy, x.candidate, DirectFailures(x), ProxyAttempts(x)) <==>
      exists a :: a in x.proxy && InWindow(a, policy, evaluatedAt) && IsTransportCategory(a.category)
    ensures Applies(ProxyEvidenceUncertain, evidence, policy, x.candidate, DirectFailures(x), ProxyAttempts(x)) <==>
      exists a :: a in x.proxy && InWindow(a, policy, evaluatedAt) && a.category != HttpResponse
        && !IsTransportCategory(a.category)
  {
    hide ProxyAttempts, DirectFailures, InWindow;
    ProxyInWindow(x, policy, evaluatedAt);
  }

  /** Address diversity is missing when an attempt that counts had a choice and no two spaced ones differ in theirs. */
  lemma DiversityReasonIff(evidence: CandidateEvidence, policy: DecisionPolicy, evaluatedAt: int, x: Examined)
    requires x.windowStart == WindowStart(policy, evaluatedAt)
    ensures Applies(DirectAddressDiversityMissing, evidence, policy, x.candidate, DirectFailures(x), ProxyAttempts(x)) <==>
      (exists a :: a in x.direct && Counts(a, policy, evaluatedAt, x.candidate) && a.availableAddressCount > 1)
      && !Witnessed(DirectFailures(x), policy, true)
  {
    hide DirectFailure, Counts, Witnessed, ProxyAttempts;
    FilterMembers(x.direct, (a: ValidatedAttempt) => DirectFailure(a, x.windowStart, x.candidate));
    RequiredMeans(DirectFailures(x));
    forall a: ValidatedAttempt
      ensures DirectFailure(a, x.windowStart, x.candidate) <==> Counts(a, policy, evaluatedAt, x.candidate)
    {
      CountsIff(a, policy, evaluatedAt, x.candidate);
    }
  }

  // ---------- The status ----------

  /** The reasons that more observation can remove. */
  predicate IsPassing(reason: Reason) {
    reason in {InsufficientObservations, InsufficientDirectFailures, DirectFailuresNotSpaced, DirectAddressDiversityMissing,
               InsufficientProxySuccesses}
  }

  /** Confirmed without reasons, pending when observation can remove all of them, blocked otherwise. */
  lemma StatusIff(reasons: seq<Reason>)
    ensures StatusForReasons(reasons) == Confirmed <==> reasons == []
    ensures StatusForReasons(reasons) == Pending <==> reasons != [] && forall reason :: reason in reasons ==>
      IsPassing(reason)
    ensures ConfidenceForStatus(StatusForReasons(reasons)) ==
      if reasons == [] then High else if forall reason :: reason in reasons ==>
          IsPassing(reason) then Low else NoConfidence
  {
    forall reason: Reason ensures Blocking(reason) <==> !IsPassing(reason) {
    }
    if reason :| reason in reasons && !IsPassing(reason) {
      var k :| 0 <= k < |reasons| && reasons[k] == reason;
      assert Blocking(reasons[k]);
    }
  }
}
