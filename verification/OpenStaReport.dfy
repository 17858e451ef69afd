/**
 * Acceptance of an OpenSTA setup/max report (parser.py `_parse_opensta_setup_max`, `parse_report`).
 *
 * What the regular expressions find in the text is given; numbers are the exact decimals they match.
 */
module OpenStaReport {
  import opened Prelude
  import opened Acceptance
  import PythonText
  import opened SyntheticReport

  datatype Banner = Banner(version: string, revision: string)
  datatype Summary = Summary(required: real, signedArrival: real, slack: real, met: bool)

  /** All matches of each pattern, in order. */
  datatype Matches = Matches(
    banners: seq<Banner>, completionMarkers: nat, errorDiagnostic: bool, units: seq<string>,
    startpoints: seq<string>, endpoints: seq<string>, pathGroups: seq<string>, pathTypes: seq<string>,
    summaries: seq<Summary>, worsts: seq<real>, arrivals: seq<real>)

  datatype FieldName =
    | BannerField | UnitField | StartpointField | EndpointField
    | PathGroupField | PathTypeField | SummaryField | WorstField

  datatype StructuralError =
    | NotExactlyOne(field: FieldName, found: nat) | UnsupportedVersion(version: string) | CompletionMarker
    | ErrorDiagnostic | UnsupportedUnit(name: string) | ArrivalRows(found: nat)

  datatype SemanticError = PathTypeMismatch | ArithmeticMismatch | ArrivalMismatch | WorstDiffers | LabelContradictsSign

  datatype Timing = Timing(required: real, arrival: real, slack: real, worst: real)

  datatype Outcome =
    Unusable(errors: seq<StructuralError>) | Read(timing: Timing, met: bool, contradictions: seq<SemanticError>)

  /** The text has the one structure the parser supports. */
  predicate WellFormed(m: Matches) {
    && |m.banners| == 1 && m.banners[0].version == "3.1.0" && m.completionMarkers == 1 && !m.errorDiagnostic
    && |m.units| == 1 && m.units[0] == "1ns" && |m.startpoints| == 1 && |m.endpoints| == 1 && |m.pathGroups| == 1
    && |m.pathTypes| == 1 && |m.summaries| == 1 && |m.worsts| == 1 && |m.arrivals| == 2
  }

  function Abs(x: real): real { if x < 0.0 then -x else x }

  /** The first of the two arrival rows is used. */
  function TimingOf(m: Matches): Timing
    requires WellFormed(m)
  {
    Timing(m.summaries[0].required, m.arrivals[0], m.summaries[0].slack, m.worsts[0])
  }

  /** The report contradicts itself in this respect. */
  predicate Faulty(m: Matches, e: SemanticError)
    requires WellFormed(m)
  {
    var s := m.summaries[0];
    match e
    case PathTypeMismatch => m.pathTypes[0] != "max"
    case ArithmeticMismatch => Abs(s.required + s.signedArrival - s.slack) > 0.000002
    case ArrivalMismatch => Abs(s.signedArrival + m.arrivals[0]) > 0.000002
    case WorstDiffers => Abs(m.worsts[0] - s.slack) > 0.0000005
    case LabelContradictsSign => s.met != (s.slack >= 0.0)
  }

  predicate Contradicts(m: Matches)
    requires WellFormed(m)
  {
    Faulty(m, PathTypeMismatch) || Faulty(m, ArithmeticMismatch) || Faulty(m, ArrivalMismatch)
    || Faulty(m, WorstDiffers)
    || Faulty(m, LabelContradictsSign)
  }

  /** How often a pattern matches. */
  function Found(m: Matches, f: FieldName): nat {
    match f
    case BannerField => |m.banners|
    case UnitField => |m.units|
    case StartpointField => |m.startpoints|
    case EndpointField => |m.endpoints|
    case PathGroupField => |m.pathGroups|
    case PathTypeField => |m.pathTypes|
    case SummaryField => |m.summaries|
    case WorstField => |m.worsts|
  }

  /** The structural error is there to be reported. */
  predicate Broken(m: Matches, e: StructuralError) {
    match e
    case NotExactlyOne(f, n) => n == Found(m, f) && n != 1
    case UnsupportedVersion(v) => |m.banners| == 1 && v == m.banners[0].version && v != "3.1.0"
    case CompletionMarker => m.completionMarkers != 1
    case ErrorDiagnostic => m.errorDiagnostic
    case UnsupportedUnit(u) => |m.units| == 1 && u == m.units[0] && u != "1ns"
    case ArrivalRows(n) => n == |m.arrivals| && n != 2
  }

  /** Append `e` if it is there to be reported. */
  method Check(errors0: seq<StructuralError>, present: bool, e: StructuralError) returns (errors: seq<StructuralError>)
    ensures forall x :: x in errors <==> x in errors0 || (present && x == e)
  {
    errors := errors0;
    if present { errors := errors + [e]; }
  }

  /** `_single_match`: an error unless the pattern matches exactly once. */
  method CheckSingle(m: Matches, f: FieldName, errors0: seq<StructuralError>) returns (errors: seq<StructuralError>)
    ensures forall x :: x in errors <==> x in errors0 || (x == NotExactlyOne(f, Found(m, f)) && Found(m, f) != 1)
  {
    errors := Check(errors0, Found(m, f) != 1, NotExactlyOne(f, Found(m, f)));
  }

  /** The checks up to the time unit. */
  predicate AboutHeader(e: StructuralError) {
    match e
    case NotExactlyOne(f, _) => f.BannerField? || f.UnitField?
    case ArrivalRows(_) => false
    case _ => true
  }

  method CheckHeader(m: Matches) returns (errors: seq<StructuralError>)
    ensures forall e :: e in errors <==> AboutHeader(e) && Broken(m, e)
  {
    errors := CheckSingle(m, BannerField, []);
    if |m.banners| == 1 {
      errors := Check(errors, m.banners[0].version != "3.1.0", UnsupportedVersion(m.banners[0].version));
    }
    errors := Check(errors, m.completionMarkers != 1, CompletionMarker);
    errors := Check(errors, m.errorDiagnostic, ErrorDiagnostic);
    errors := CheckSingle(m, UnitField, errors);
    if |m.units| == 1 { errors := Check(errors, m.units[0] != "1ns", UnsupportedUnit(m.units[0])); }
  }

  method CheckPath(m: Matches, errors0: seq<StructuralError>) returns (errors: seq<StructuralError>)
    ensures forall e :: e in errors <==> e in errors0 || (!AboutHeader(e) && Broken(m, e))
  {
    errors := CheckSingle(m, StartpointField, errors0);
    errors := CheckSingle(m, EndpointField, errors);
    errors := CheckSingle(m, PathGroupField, errors);
    errors := CheckSingle(m, PathTypeField, errors);
    errors := CheckSingle(m, SummaryField, errors);
    errors := CheckSingle(m, WorstField, errors);
    errors := Check(errors, |m.arrivals| != 2, ArrivalRows(|m.arrivals|));
  }

  /** The structural errors: exactly those there are. */
  method CheckStructure(m: Matches) returns (errors: seq<StructuralError>)
    ensures forall e :: e in errors <==> Broken(m, e)
    ensures errors == [] <==> WellFormed(m)
  {
    errors := CheckHeader(m);
    errors := CheckPath(m, errors);
    NothingBroken(m);
    assert errors != [] ==> errors[0] in errors;
  }

  lemma NothingBroken(m: Matches)
    ensures WellFormed(m) <==> forall e :: !Broken(m, e)
  {
    if !WellFormed(m) {
      if |m.banners| != 1 { assert Broken(m, NotExactlyOne(BannerField, |m.banners|)); }
      else if m.banners[0].version != "3.1.0" { assert Broken(m, UnsupportedVersion(m.banners[0].version)); }
      else if m.completionMarkers != 1 { assert Broken(m, CompletionMarker); }
      else if m.errorDiagnostic { assert Broken(m, ErrorDiagnostic); }
      else if |m.units| != 1 { assert Broken(m, NotExactlyOne(UnitField, |m.units|)); }
      else if m.units[0] != "1ns" { assert Broken(m, UnsupportedUnit(m.units[0])); }
      else if |m.startpoints| != 1 { assert Broken(m, NotExactlyOne(StartpointField, |m.startpoints|)); }
      else if |m.endpoints| != 1 { assert Broken(m, NotExactlyOne(EndpointField, |m.endpoints|)); }
      else if |m.pathGroups| != 1 { assert Broken(m, NotExactlyOne(PathGroupField, |m.pathGroups|)); }
      else if |m.pathTypes| != 1 { assert Broken(m, NotExactlyOne(PathTypeField, |m.pathTypes|)); }
      else if |m.summaries| != 1 { assert Broken(m, NotExactlyOne(SummaryField, |m.summaries|)); }
      else if |m.worsts| != 1 { assert Broken(m, NotExactlyOne(WorstField, |m.worsts|)); }
      else { assert Broken(m, ArrivalRows(|m.arrivals|)); }
    }
  }

  /** The checks on the values of a well-formed report. */
  method CheckSemantics(m: Matches) returns (errors: seq<SemanticError>)
    requires WellFormed(m)
    ensures forall e :: e in errors <==> Faulty(m, e)
    ensures errors == [] <==> !Contradicts(m)
  {
    var s := m.summaries[0];
    errors := [];
    if m.pathTypes[0] != "max" { errors := errors + [PathTypeMismatch]; }
    if Abs(s.required + s.signedArrival - s.slack) > 0.000002 { errors := errors + [ArithmeticMismatch]; }
    if Abs(s.signedArrival + m.arrivals[0]) > 0.000002 { errors := errors + [ArrivalMismatch]; }
    if Abs(m.worsts[0] - s.slack) > 0.0000005 { errors := errors + [WorstDiffers]; }
    if (s.met && s.slack < 0.0) || (!s.met && s.slack >= 0.0) { errors := errors + [LabelContradictsSign]; }
    assert errors != [] ==> errors[0] in errors;
  }

  /** A structural error ends the reading before any value is used; otherwise every contradiction is reported. */
  method ParseSetupMax(m: Matches) returns (r: Outcome)
    ensures r.Read? <==> WellFormed(m)
    ensures r.Unusable? ==> forall e :: e in r.errors <==> Broken(m, e)
    ensures r.Read? ==> r.timing == TimingOf(m) && r.met == m.summaries[0].met
    ensures r.Read? ==>
      (forall e :: e in r.contradictions <==> Faulty(m, e)) && (r.contradictions != [] <==> Contradicts(m))
  {
    var errors := CheckStructure(m);
    if errors != [] { return Unusable(errors); }
    var s := m.summaries[0];
    var contradictions := CheckSemantics(m);
    r := Read(Timing(s.required, m.arrivals[0], s.slack, m.worsts[0]), s.met, contradictions);
  }

  /** What an accepted report says about its numbers. */
  predicate Consistent(t: Timing, met: bool) {
    && -0.0000045 <= t.required - t.arrival - t.worst <= 0.0000045
    && -0.0000005 <= t.worst - t.slack <= 0.0000005
    && (met <==> t.slack >= 0.0)
  }

  /** A report that does not contradict itself satisfies required - arrival = worst slack to within 4.5e-6 ns. */
  lemma AcceptedIsConsistent(m: Matches)
    requires WellFormed(m) && !Contradicts(m)
    ensures Consistent(TimingOf(m), m.summaries[0].met)
  {
    var s, t := m.summaries[0], TimingOf(m);
    assert t.required - t.arrival - t.worst
        == (s.required + s.signedArrival - s.slack) - (s.signedArrival + t.arrival) - (t.worst - s.slack);
  }

  function Example(summary: Summary, worst: real, arrival: real): Matches {
    Matches([Banner("3.1.0", "0")], 1, false, ["1ns"], ["a"], ["b"], ["clk"], ["max"], [summary], [worst],
            [arrival, arrival])
  }

  /** The bound cannot be improved, and a report labelled MET may have a (very slightly) negative worst slack. */
  lemma BoundsAreTight()
    ensures var m := Example(Summary(1.000002, -1.0, 0.0, true), -0.0000005, 0.999998);
            && WellFormed(m) && !Contradicts(m)
            && TimingOf(m).required - TimingOf(m).arrival - TimingOf(m).worst == 0.0000045
            && m.summaries[0].met && TimingOf(m).worst < 0.0
  {
  }

  /** An accepted report, labelled MET, with this slack and a negative worst slack. */
  ghost predicate PassesWithNegativeWorst(m: Matches, slack: real) {
    WellFormed(m) && !Contradicts(m) && m.summaries[0].met && m.summaries[0].slack == slack && TimingOf(m).worst < 0.0
  }

  /**
   * PASS goes with a negative worst slack for exactly the slacks below the comparison's tolerance, 0 <= slack < 5e-7
   * ns.
   */
  lemma NegativeWorstExactlyWhen(slack: real)
    ensures (exists m: Matches :: PassesWithNegativeWorst(m, slack)) <==> 0.0 <= slack < 0.0000005
  {
    if 0.0 <= slack < 0.0000005 {
      var m := Example(Summary(slack + 1.0, -1.0, slack, true), slack - 0.0000005, 1.0);
      assert PassesWithNegativeWorst(m, slack);
    }
    forall m: Matches | PassesWithNegativeWorst(m, slack) ensures 0.0 <= slack < 0.0000005 {
      AcceptedIsConsistent(m);
    }
  }

  // ---------------------------------------------------------------- every report

  /** An artifact: bytes that are not UTF-8, or a text with what the OpenSTA patterns match in it. */
  datatype Artifact = NotUtf8 | Text(text: string, matches: Matches)

  const OPENSTA_PREFIX := "OpenSTA "

  const UNUSABLE := Report(ParseInvalid, CheckUnknown, false, FindingUnknown, FindingUnknown)

  function OpenStaStatus(m: Matches): Report {
    if !WellFormed(m) then UNUSABLE
    else if Contradicts(m) then Report(ParseOk, CheckUnknown, true, FindingInvalid, FindingValid)
    else Report(ParseOk, if m.summaries[0].met then CheckPass else CheckFail, true, FindingValid, FindingValid)
  }

  /** The status fields an artifact earns. */
  function StatusFields(a: Artifact): Report {
    if a.NotUtf8? then UNUSABLE
    else if FirstLine(a.text) == MARKER then StatusOf(Finish(Scan(PythonText.SplitLines(a.text))))
    else if OPENSTA_PREFIX <= FirstLine(a.text) then OpenStaStatus(a.matches)
    else UNUSABLE
  }

  /** The slack the artifact reports, in ns, if it is of a known kind and nothing is wrong with it. */
  function ReportedSlack(a: Artifact): Option<real> {
    if a.NotUtf8? then None
    else if FirstLine(a.text) == MARKER then
      var p := Finish(Scan(PythonText.SplitLines(a.text)));
      if p.Accepted? then Some(p.metrics.slackNs) else None
    else if OPENSTA_PREFIX <= FirstLine(a.text) && WellFormed(a.matches) && !Contradicts(a.matches) then
      Some(TimingOf(a.matches).slack)
    else None
  }

  /** What the status fields must say of the artifact, by its reported slack alone. */
  ghost predicate Judged(a: Artifact, r: Report) {
    && (r.check.CheckPass? <==> ReportedSlack(a).Some? && ReportedSlack(a).value >= 0.0)
    && (r.check.CheckFail? <==> ReportedSlack(a).Some? && ReportedSlack(a).value < 0.0)
    && (r.check.CheckUnknown? <==> ReportedSlack(a).None?)
    && (r.semantic.FindingValid? <==> ReportedSlack(a).Some?)
    && (r.semantic.FindingInvalid? <==>
          && a.Text? && FirstLine(a.text) != MARKER && OPENSTA_PREFIX <= FirstLine(a.text)
          && WellFormed(a.matches) && Contradicts(a.matches))
    && (r.parse.ParseOk? <==> r.semantic.FindingValid? || r.semantic.FindingInvalid?)
  }

  /**
   * Of every artifact: PASS means a reported slack of at least 0, FAIL a negative one, UNKNOWN that there is none to
   * go by; and only an OpenSTA report that contradicts itself is semantically INVALID.
   */
  lemma CheckAnswersTheSlack(a: Artifact)
    ensures Judged(a, StatusFields(a))
  {
    if a.Text? && FirstLine(a.text) != MARKER && WellFormed(a.matches) && !Contradicts(a.matches) {
      AcceptedIsConsistent(a.matches);
    }
  }

  /** `parse_report`, with its loops and error lists. */
  method ParseReport(a: Artifact) returns (r: Report)
    ensures r == StatusFields(a) && Judged(a, r)
  {
    CheckAnswersTheSlack(a);
    if a.NotUtf8? { return UNUSABLE; }
    var first := FirstLine(a.text);
    if first == MARKER {
      var p := Parse(a.text);
      return StatusOf(p);
    }
    if OPENSTA_PREFIX <= first {
      var o := ParseSetupMax(a.matches);
      match o {
        case Unusable(_) => return UNUSABLE;
        case Read(_, met, contradictions) =>
          return if contradictions != [] then Report(ParseOk, CheckUnknown, true, FindingInvalid, FindingValid)
                 else Report(ParseOk, if met then CheckPass else CheckFail, true, FindingValid, FindingValid);
      }
    }
    return UNUSABLE;
  }

  /**
   * End to end: whatever artifact an execution leaves and however it exits, the local loop and the Supervisor accept
   * it or reject it together; accepting it is the same as recording it TRUSTED, and takes exit code 0; and an accepted
   * OpenSTA report is consistent.
   */
  lemma EveryArtifactIsJudgedAlike(a: Artifact, exitCode: Option<int>)
    ensures InParserRange(StatusFields(a))
    ensures LocalDecision(StatusFields(a), exitCode).Accept? == SupervisedDecision(StatusFields(a), exitCode).Accept?
    ensures LocalDecision(StatusFields(a), exitCode).Accept? <==>
      ValidationFields(StatusFields(a), exitCode).trust.Trusted?
    ensures LocalDecision(StatusFields(a), exitCode).Accept? ==>
      && exitCode == Some(0) && a.Text?
      && (FirstLine(a.text) == MARKER
          || (WellFormed(a.matches) && Consistent(TimingOf(a.matches), a.matches.summaries[0].met)))
  {
    var r := StatusFields(a);
    ParserRangeAgrees(r, exitCode);
    if a.Text? && WellFormed(a.matches) && !Contradicts(a.matches) { AcceptedIsConsistent(a.matches); }
  }
}
