/**
 * Result acceptance: what a parsed report and an observed exit code are worth.
 *
 * The local retry loop (service.py) and the Supervisor (execution_supervisor.py) decide
 * separately whether an execution is accepted; both record the same validation fields.
 */
module Acceptance {
  import opened Prelude

  datatype ParseStatus = ParseNotStarted | ParseOk | ParseInvalid
  datatype CheckStatus = CheckUnknown | CheckPass | CheckFail
  datatype Finding = FindingUnknown | FindingValid | FindingInvalid
  datatype Trust = TrustUnknown | Trusted | TrustInvalid

  /** The status fields of a `ParseResult`. */
  datatype Report = Report(parse: ParseStatus, check: CheckStatus, complete: bool,
                           semantic: Finding, provenance: Finding)

  /** The validation fields stored on a Run. */
  datatype Verdict = Verdict(report: Report, trust: Trust, exitCode: Option<int>)

  datatype ErrorType =
    | ErrorParseInvalid | ErrorSemanticInvalid | ErrorOutcomeUnknown | ErrorToolExit
    | ErrorSupervisorValidation | ErrorCancelled | ErrorTimeout | ErrorTransport | ErrorExecution
    | ErrorSupervisorTerminated | ErrorWorkerUnavailable | ErrorOrphanIdentity

  datatype Decision = Accept | Reject(error: ErrorType)

  const NOT_STARTED := Report(ParseNotStarted, CheckUnknown, false, FindingUnknown, FindingUnknown)
  const NO_VERDICT := Verdict(NOT_STARTED, TrustUnknown, None)

  function TrustOf(r: Report, exitCode: Option<int>): Trust {
    if r.parse.ParseInvalid? || r.semantic.FindingInvalid? then TrustInvalid
    else if exitCode.None? then TrustUnknown
    else if exitCode.value != 0 then TrustInvalid
    else if !r.provenance.FindingValid? then TrustUnknown
    else if r.parse.ParseOk? && r.semantic.FindingValid? then Trusted
    else TrustUnknown
  }

  function ValidationFields(r: Report, exitCode: Option<int>): Verdict {
    Verdict(r, TrustOf(r, exitCode), exitCode)
  }

  /** The acceptance chain of the local retry loop. */
  function LocalDecision(r: Report, exitCode: Option<int>): Decision {
    if r.parse.ParseInvalid? then Reject(ErrorParseInvalid)
    else if r.semantic.FindingInvalid? then Reject(ErrorSemanticInvalid)
    else if exitCode.None? then Reject(ErrorOutcomeUnknown)
    else if exitCode.value != 0 then Reject(ErrorToolExit)
    else Accept
  }

  /** The acceptance test of the Supervisor. */
  function SupervisedDecision(r: Report, exitCode: Option<int>): Decision {
    if r.parse.ParseOk? && r.semantic.FindingValid? && exitCode == Some(0) then Accept
    else Reject(ErrorSupervisorValidation)
  }

  /** Every status combination `parse_report` can return (parser.py). */
  predicate InParserRange(r: Report) {
    || r == Report(ParseInvalid, CheckUnknown, false, FindingUnknown, FindingUnknown)
    || (r.parse.ParseOk? && r.complete && r.provenance.FindingValid?
        && (if r.semantic.FindingValid? then !r.check.CheckUnknown?
            else r.semantic.FindingInvalid? && r.check.CheckUnknown?))
  }

  /** What TRUSTED promises, independently of how it is computed. */
  predicate Evidence(v: Verdict) {
    v.exitCode == Some(0) && v.report.parse.ParseOk? && v.report.semantic.FindingValid?
    && v.report.provenance.FindingValid?
  }

  /** TRUSTED is recorded exactly when every piece of evidence is present; no other report or exit code earns it. */
  lemma TrustedMeansEvidence(r: Report, exitCode: Option<int>)
    ensures var v := ValidationFields(r, exitCode);
            v.report == r && v.exitCode == exitCode && (v.trust.Trusted? <==> Evidence(v))
  {
  }

  /** The report, or the exit code, speaks against the execution. */
  predicate Disproved(r: Report, exitCode: Option<int>) {
    r.parse.ParseInvalid? || r.semantic.FindingInvalid? || (exitCode.Some? && exitCode.value != 0)
  }

  /**
   * Trust is INVALID exactly where something speaks against the execution, a report that was read being the reason even
   * without an exit code; and where neither that nor all the evidence is there, it stays UNKNOWN.
   */
  lemma DistrustMeansDisproof(r: Report, exitCode: Option<int>)
    ensures var v := ValidationFields(r, exitCode);
            && (v.trust.TrustInvalid? <==> Disproved(r, exitCode))
            && (v.trust.TrustUnknown? <==> !Disproved(r, exitCode) && !Evidence(v))
  {
  }

  /**
   * A rejection names its reason: the report before the exit code, the syntax before the semantics, a missing exit code
   * as an unknown outcome. The Supervisor has one name for all of them.
   */
  lemma RejectionNamesItsReason(r: Report, exitCode: Option<int>)
    ensures var d := LocalDecision(r, exitCode);
            && (d == Reject(ErrorParseInvalid) <==> r.parse.ParseInvalid?)
            && (d == Reject(ErrorSemanticInvalid) <==> !r.parse.ParseInvalid? && r.semantic.FindingInvalid?)
            && (d == Reject(ErrorOutcomeUnknown) <==> exitCode.None? && !Disproved(r, exitCode))
            && (d == Reject(ErrorToolExit) <==> Disproved(r, exitCode) && !Disproved(r, None))
            && (d.Accept? <==> exitCode == Some(0) && !Disproved(r, exitCode))
    ensures var d := SupervisedDecision(r, exitCode);
            if Evidence(ValidationFields(r.(provenance := FindingValid), exitCode)) then d == Accept
            else d == Reject(ErrorSupervisorValidation)
  {
  }

  /**
   * The two paths accept the same executions, except for one family of reports: a clean exit
   * whose report is neither INVALID nor (OK and semantically VALID). There the local loop accepts
   * and the Supervisor rejects.
   */
  lemma PathsAgreeExactlyWhen(r: Report, exitCode: Option<int>)
    ensures LocalDecision(r, exitCode).Accept? == SupervisedDecision(r, exitCode).Accept?
       <==> !(exitCode == Some(0)
              && !r.parse.ParseInvalid? && !r.semantic.FindingInvalid?
              && (r.parse.ParseNotStarted? || r.semantic.FindingUnknown?))
  {
  }

  /** Over everything the parser can return the two paths agree, and acceptance is the same as TRUSTED. */
  lemma ParserRangeAgrees(r: Report, exitCode: Option<int>)
    requires InParserRange(r)
    ensures LocalDecision(r, exitCode).Accept? == SupervisedDecision(r, exitCode).Accept?
    ensures LocalDecision(r, exitCode).Accept? <==> ValidationFields(r, exitCode).trust.Trusted?
  {
    PathsAgreeExactlyWhen(r, exitCode);
  }

  /** A report outside the parser's range on which the two paths part: OK, semantics unknown, exit code 0. */
  lemma PathsDisagreeOutsideRange()
    ensures var r := Report(ParseOk, CheckUnknown, true, FindingUnknown, FindingValid);
            LocalDecision(r, Some(0)).Accept? && !SupervisedDecision(r, Some(0)).Accept?
  {
  }
}
