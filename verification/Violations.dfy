/** Which timing violations are new in a revision (store.py `new_violations`). */
module Violations {
  import opened Prelude
  import opened Order

  datatype Revision = Revision(
    design: string, libertyHash: string, sdcHash: string, toolVersion: string, parserVersion: string)

  /** The five fields that identify a path, in the order the result is sorted by. */
  datatype Identity = Identity(
    startpoint: string, endpoint: string, pathGroup: string, analysisType: string, corner: string) {
    function Fields(): seq<string> { [startpoint, endpoint, pathGroup, analysisType, corner] }
  }

  datatype Finding = Finding(id: Identity, slack: real)

  /** A row of the findings table. Nothing forbids two equal rows. */
  datatype Row = Row(revision: string, finding: Finding)

  datatype Comparability = Incomparable | ConditionChanged | ToolChanged | Comparable

  datatype Answer = UnknownRevision | Answer(comparability: Comparability, findings: seq<Finding>)

  function Compare(a: Revision, b: Revision): Comparability {
    if a.design != b.design then Incomparable
    else if a.libertyHash != b.libertyHash || a.sdcHash != b.sdcHash then ConditionChanged
    else if a.toolVersion != b.toolVersion || a.parserVersion != b.parserVersion then ToolChanged
    else Comparable
  }

  /** The two revisions differ in this respect. */
  datatype Respect = ByDesign | ByConditions | ByTools

  predicate Differ(a: Revision, b: Revision, respect: Respect) {
    match respect
    case ByDesign => a.design != b.design
    case ByConditions => !(a.libertyHash == b.libertyHash && a.sdcHash == b.sdcHash)
    case ByTools => !(a.toolVersion == b.toolVersion && a.parserVersion == b.parserVersion)
  }

  /** The answer names the gravest respect in which the revisions differ: the design, the conditions, the tools. */
  lemma ComparedByGravestDifference(a: Revision, b: Revision)
    ensures Compare(a, b) == Incomparable <==> Differ(a, b, ByDesign)
    ensures Compare(a, b) == ConditionChanged <==> Differ(a, b, ByConditions) && !Differ(a, b, ByDesign)
    ensures Compare(a, b) == ToolChanged <==>
              Differ(a, b, ByTools) && !Differ(a, b, ByConditions) && !Differ(a, b, ByDesign)
    ensures Compare(a, b) == Comparable <==> forall respect :: !Differ(a, b, respect)
  {
    assert (forall respect :: !Differ(a, b, respect)) <==>
      !Differ(a, b, ByDesign) && !Differ(a, b, ByConditions) && !Differ(a, b, ByTools);
  }

  /** Comparability does not depend on which revision is the baseline, and being COMPARABLE is an equivalence. */
  lemma ComparabilityLaws(a: Revision, b: Revision, c: Revision)
    ensures Compare(a, b) == Compare(b, a)
    ensures Compare(a, a) == Comparable
    ensures Compare(a, b) == Comparable && Compare(b, c) == Comparable ==> Compare(a, c) == Comparable
    ensures Compare(a, b) == Comparable ==> Compare(a, c) == Compare(b, c)
  {
  }

  // ---------------------------------------------------------------- the order of the result

  predicate FindingLeq(a: Finding, b: Finding) {
    a.slack < b.slack || (a.slack == b.slack && Lex(TextLeq, a.id.Fields(), b.id.Fields()))
  }

  lemma FindingIsTotalOrder()
    ensures TotalOrder(FindingLeq)
  {
    TextIsTotalOrder();
    LexIsTotalOrder(TextLeq);
    forall a, b
      ensures FindingLeq(a, b) || FindingLeq(b, a)
      ensures FindingLeq(a, b) && FindingLeq(b, a) ==> a == b
    {
      LexTotal(TextLeq, a.id.Fields(), b.id.Fields());
      assert a.id.Fields() == b.id.Fields() ==> a.id == b.id by { FieldsIdentify(a.id, b.id); }
    }
    forall a, b, c | FindingLeq(a, b) && FindingLeq(b, c) ensures FindingLeq(a, c) {
      if a.slack == b.slack == c.slack { LexTransitive(TextLeq, a.id.Fields(), b.id.Fields(), c.id.Fields()); }
    }
  }

  lemma FieldsIdentify(a: Identity, b: Identity)
    ensures a.Fields() == b.Fields() ==> a == b
  {
    var s, t := a.Fields(), b.Fields();
    assert s == t ==> s[0] == t[0] && s[1] == t[1] && s[2] == t[2] && s[3] == t[3] && s[4] == t[4];
  }

  // ---------------------------------------------------------------- what is new

  /** The violated paths of a revision. */
  function Violated(rows: seq<Row>, revision: string): set<Identity> {
    set r | r in rows && r.revision == revision && r.finding.slack < 0.0 :: r.finding.id
  }

  function NewPaths(rows: seq<Row>, baseline: string, candidate: string): set<Identity> {
    Violated(rows, candidate) - Violated(rows, baseline)
  }

  /** A candidate row that violates and whose path has no violating row in the baseline. */
  predicate IsNew(rows: seq<Row>, baseline: string, f: Finding) {
    f.slack < 0.0 && f.id !in Violated(rows, baseline)
  }

  /** The sorted rows of the candidate, each as often as it is stored, that are new with respect to the baseline. */
  ghost predicate NewFindings(found: seq<Finding>, rows: seq<Row>, baseline: string, candidate: string) {
    && Sorted(FindingLeq, found)
    && forall f :: multiset(found)[f] == if IsNew(rows, baseline, f) then multiset(rows)[Row(candidate, f)] else 0
  }

  method NewViolations(revisions: map<string, Revision>, rows: seq<Row>, baseline: string, candidate: string)
    returns (answer: Answer)
    ensures answer.UnknownRevision? <==> baseline !in revisions || candidate !in revisions
    ensures answer.Answer? ==>
      && answer.comparability == Compare(revisions[baseline], revisions[candidate])
      && (if answer.comparability.Comparable? then NewFindings(answer.findings, rows, baseline, candidate)
          else answer.findings == [])
  {
    if baseline !in revisions || candidate !in revisions { return UnknownRevision; }
    var comparability := Compare(revisions[baseline], revisions[candidate]);
    if !comparability.Comparable? { return Answer(comparability, []); }
    var found := Select(rows, baseline, candidate);
    answer := Answer(comparability, found);
  }

  method Select(rows: seq<Row>, baseline: string, candidate: string) returns (found: seq<Finding>)
    ensures NewFindings(found, rows, baseline, candidate)
  {
    found := [];
    FindingIsTotalOrder();
    var i := 0;
    while i < |rows|
      invariant i <= |rows| && Sorted(FindingLeq, found)
      invariant forall f ::
        multiset(found)[f] == if IsNew(rows, baseline, f) then multiset(rows[..i])[Row(candidate, f)] else 0
    {
      assert rows[..i + 1] == rows[..i] + [rows[i]];
      var f := rows[i].finding;
      if rows[i].revision == candidate && IsNew(rows, baseline, f) {
        InsertSorts(FindingLeq, f, found);
        InsertAdds(FindingLeq, f, found);
        found := Insert(FindingLeq, f, found);
      }
      i := i + 1;
    }
    assert rows[..|rows|] == rows;
  }

  /** The result is determined by which rows are stored, not by the order they were inserted in. */
  lemma InsertionOrderDoesNotMatter(rows: seq<Row>, shuffled: seq<Row>, baseline: string, candidate: string,
                                    s: seq<Finding>, t: seq<Finding>)
    requires multiset(rows) == multiset(shuffled)
    requires NewFindings(s, rows, baseline, candidate) && NewFindings(t, shuffled, baseline, candidate)
    ensures s == t
  {
    assert forall r :: r in rows <==> r in multiset(rows);
    assert forall r :: r in shuffled <==> r in multiset(shuffled);
    assert Violated(rows, baseline) == Violated(shuffled, baseline);
    forall f ensures multiset(s)[f] == multiset(t)[f] {
      assert IsNew(rows, baseline, f) == IsNew(shuffled, baseline, f);
    }
    assert multiset(s) == multiset(t);
    FindingIsTotalOrder();
    SortedIsUnique(FindingLeq, s, t);
  }

  /** The paths of the result are exactly the newly violated ones. */
  lemma FoundPaths(rows: seq<Row>, baseline: string, candidate: string, s: seq<Finding>, p: Identity)
    requires NewFindings(s, rows, baseline, candidate)
    ensures (exists f :: f in s && f.id == p) <==> p in NewPaths(rows, baseline, candidate)
  {
    if p in NewPaths(rows, baseline, candidate) {
      var r :| r in rows && r.revision == candidate && r.finding.slack < 0.0 && r.finding.id == p;
      assert Row(candidate, r.finding) == r && r in multiset(rows);
      assert r.finding in multiset(s);
    }
    if exists f :: f in s && f.id == p {
      var f :| f in s && f.id == p;
      assert f in multiset(s);
      assert Row(candidate, f) in multiset(rows);
      assert Row(candidate, f) in rows;
    }
  }

  /**
   * Going from A to C brings no violation that neither A to B nor B to C brings; a revision brings nothing new over
   * itself; and every violated path of C is either an old one of A or new.
   */
  lemma NewPathsTriangle(rows: seq<Row>, a: string, b: string, c: string)
    ensures NewPaths(rows, a, c) <= NewPaths(rows, a, b) + NewPaths(rows, b, c)
    ensures NewPaths(rows, a, a) == {}
    ensures Violated(rows, c) <= Violated(rows, a) + NewPaths(rows, a, c)
    ensures NewPaths(rows, a, c) !! Violated(rows, a)
  {
  }

  /** Asked of itself, a revision answers COMPARABLE with no findings at all. */
  lemma NothingNewOverItself(rows: seq<Row>, revision: string, s: seq<Finding>)
    requires NewFindings(s, rows, revision, revision)
    ensures s == []
  {
    assert s != [] ==> s[0] in s;
    forall f ensures f !in s { FoundPaths(rows, revision, revision, s, f.id); }
  }
}
