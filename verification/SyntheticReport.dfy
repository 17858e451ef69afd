/** The synthetic report: what the fixture adapter prints (runner.py) and how it is parsed (parser.py). */
module SyntheticReport {
  import opened Prelude
  import opened Acceptance
  import opened PythonText

  const MARKER := "SYNTHETIC / NOT GENERATED BY AN EDA TOOL"
  const REQUIRED := ["fixture_format_version", "run_id", "stage", "corner", "tool_exit_code", "worst_slack"]

  datatype Unit = Ns | Ps {
    function Name(): string { if Ns? then "ns" else "ps" }
  }

  // ---------------------------------------------------------------- the printer

  function Field(key: string, value: string): string { key + "=" + value }

  function SlackText(slack: Decimal, u: Unit): string { slack.Print() + " " + u.Name() }

  datatype Entry = Entry(key: string, value: string)

  /** The fields of the `normal` profile's report; `slack` is the text of the slack with its unit. */
  function ReportFields(job: string, corner: string, slack: string): seq<Entry> {
    [Entry("fixture_source", "synthetic"), Entry("fixture_format_version", "1"), Entry("run_id", job),
     Entry("stage", "timing"),
     Entry("corner", corner), Entry("tool_exit_code", "0"), Entry("worst_slack", slack)]
  }

  function FieldLines(fields: seq<Entry>): seq<string> {
    seq(|fields|, i requires 0 <= i < |fields| => Field(fields[i].key, fields[i].value))
  }

  function ReportLines(fields: seq<Entry>): seq<string> { [MARKER] + FieldLines(fields) }

  const PADDING_LINE := "# synthetic artifact padding"

  /** `artifactBytes` asks for padding when the report is shorter. */
  function Payload(lines: seq<string>, artifactBytes: nat): string {
    var text := Lines(lines);
    if artifactBytes > |text| then text + PADDING_LINE + "\n" + seq(artifactBytes - |text|, _ => 'x') else text
  }

  // ---------------------------------------------------------------- the parser

  datatype ParseError =
    | DuplicateField(key: string, line: nat) | MissingField(key: string)
    | BadVersion | BadExitCode | BadSlack | UnsupportedFormat

  datatype Metrics = Metrics(
    runId: string, stage: string, corner: string, exitCode: int, slackNs: real, original: Decimal, unit: Unit)

  datatype Parsed = Rejected(errors: seq<ParseError>) | Accepted(metrics: Metrics)

  /** The field a line sets, if any: split once at the first "=", both sides trimmed; the marker line sets nothing. */
  function EntryOf(line: string): Option<Entry> {
    if '=' !in line || MARKER <= line then None
    else
      var i := IndexOf(line, '=');
      Some(Entry(Strip(line[..i]), Strip(line[i + 1..])))
  }

  datatype Fields = Fields(values: map<string, string>, errors: seq<ParseError>)

  /** What each line sets. */
  function Entries(lines: seq<string>): (es: seq<Option<Entry>>)
    ensures |es| == |lines| && forall i :: 0 <= i < |lines| ==> es[i] == EntryOf(lines[i])
  {
    seq(|lines|, i requires 0 <= i < |lines| => EntryOf(lines[i]))
  }

  /** One more line, number `line`: the last value of a key wins, and a repetition is an error. */
  function Add(before: Fields, e: Option<Entry>, line: nat): Fields {
    match e
    case None => before
    case Some(f) =>
      Fields(before.values[f.key := f.value],
             if f.key in before.values then before.errors + [DuplicateField(f.key, line)] else before.errors)
  }

  function Collect(es: seq<Option<Entry>>): Fields {
    if es == [] then Fields(map[], []) else Add(Collect(es[..|es| - 1]), es[|es| - 1], |es|)
  }

  function Scan(lines: seq<string>): Fields { Collect(Entries(lines)) }

  /** The loop over the lines, filling the dictionary and the error list. */
  method ScanLines(lines: seq<string>) returns (values: map<string, string>, errors: seq<ParseError>)
    ensures Fields(values, errors) == Scan(lines)
  {
    values, errors := map[], [];
    var i := 0;
    while i < |lines|
      invariant i <= |lines| && Fields(values, errors) == Scan(lines[..i])
    {
      assert Entries(lines[..i + 1])[..i] == Entries(lines[..i]) && lines[..i + 1][i] == lines[i];
      var line := lines[i];
      if '=' in line && !(MARKER <= line) {
        var at := IndexOf(line, '=');
        var key, value := Strip(line[..at]), Strip(line[at + 1..]);
        if key in values { errors := errors + [DuplicateField(key, i + 1)]; }
        values := values[key := value];
      }
      i := i + 1;
    }
    assert lines[..|lines|] == lines;
  }

  /** Number, optional white space, unit, and nothing else. */
  function ParseSlack(s: string): (r: Option<(Decimal, Unit)>)
    ensures r.Some? ==> r.value.0.Valid()
  {
    if |s| < 2 then None
    else
      var body, suffix := StripRight(s[..|s| - 2]), s[|s| - 2..];
      match ParseDecimal(body)
      case None => None
      case Some(d) => if suffix == "ns" then Some((d, Ns)) else if suffix == "ps" then Some((d, Ps)) else None
  }

  function InNs(d: Decimal, u: Unit): real
    requires d.Valid()
  {
    if u.Ns? then d.Value() else d.Value() / 1000.0
  }

  function Missing(values: map<string, string>, keys: seq<string>): seq<ParseError> {
    if keys == [] then [] else (if keys[0] in values then [] else [MissingField(keys[0])]) + Missing(values, keys[1..])
  }

  lemma {:induction false} NothingMissing(values: map<string, string>, keys: seq<string>)
    ensures Missing(values, keys) == [] <==> forall k :: k in keys ==> k in values
  {
    if keys != [] { NothingMissing(values, keys[1..]); }
  }

  function Finish(f: Fields): Parsed {
    var errors := f.errors + Missing(f.values, REQUIRED);
    if errors != [] then Rejected(errors)
    else
      NothingMissing(f.values, REQUIRED);
      assert forall i :: 0 <= i < |REQUIRED| ==> REQUIRED[i] in REQUIRED;
      var version, exit, slack := ParseInt(f.values[REQUIRED[0]]), ParseInt(f.values[REQUIRED[4]]),
        ParseSlack(f.values[REQUIRED[5]]);
      if version != Some(1) then Rejected([BadVersion])
      else if exit.None? then Rejected([BadExitCode])
      else if slack.None? then Rejected([BadSlack])
      else Accepted(Metrics(f.values[REQUIRED[1]], f.values[REQUIRED[2]], f.values[REQUIRED[3]], exit.value,
                            InNs(slack.value.0, slack.value.1), slack.value.0, slack.value.1))
  }

  function FirstLine(text: string): string {
    var lines := SplitLines(text);
    if lines == [] then "" else Strip(lines[0])
  }

  /** `parse_report` on a text whose first line is not an OpenSTA banner. */
  method Parse(text: string) returns (p: Parsed)
    ensures p == if FirstLine(text) == MARKER then Finish(Scan(SplitLines(text))) else Rejected([UnsupportedFormat])
  {
    if FirstLine(text) != MARKER { return Rejected([UnsupportedFormat]); }
    var values, errors := ScanLines(SplitLines(text));
    p := Finish(Fields(values, errors));
  }

  /** The status fields of the result. */
  function StatusOf(p: Parsed): (r: Report)
    ensures InParserRange(r)
    ensures r.parse.ParseOk? <==> p.Accepted?
    ensures r.check.CheckPass? <==> p.Accepted? && p.metrics.slackNs >= 0.0
  {
    match p
    case Rejected(_) => Report(ParseInvalid, CheckUnknown, false, FindingUnknown, FindingUnknown)
    case Accepted(m) =>
      Report(ParseOk, if m.slackNs >= 0.0 then CheckPass else CheckFail, true, FindingValid, FindingValid)
  }

  // ---------------------------------------------------------------- what is accepted, and what is wrong with the rest

  /** The six fields a report must have. */
  predicate HasAll(values: map<string, string>) {
    "fixture_format_version" in values && "run_id" in values && "stage" in values && "corner" in values
    && "tool_exit_code" in values && "worst_slack" in values
  }

  /** The metrics say what the fields say, the slack in ns: a picosecond is a thousandth. */
  predicate MetricsSay(m: Metrics, values: map<string, string>)
    requires HasAll(values)
  {
    && m.runId == values["run_id"] && m.stage == values["stage"] && m.corner == values["corner"]
    && ParseInt(values["tool_exit_code"]) == Some(m.exitCode)
    && ParseSlack(values["worst_slack"]) == Some((m.original, m.unit))
    && m.original.Valid() && (if m.unit.Ns? then m.slackNs else m.slackNs * 1000.0) == m.original.Value()
  }

  /**
   * A report is accepted exactly if no field is set twice, none is missing, the version is 1, the exit code is a number
   * and the slack one with a unit. If fields are missing or set twice it is rejected for exactly those; else for the
   * first of version, exit code and slack that is wrong.
   */
  lemma AcceptedExactlyWhen(f: Fields)
    ensures Finish(f).Accepted? <==>
      && f.errors == [] && HasAll(f.values) && ParseInt(f.values["fixture_format_version"]) == Some(1)
      && ParseInt(f.values["tool_exit_code"]).Some? && ParseSlack(f.values["worst_slack"]).Some?
    ensures Finish(f).Accepted? ==> MetricsSay(Finish(f).metrics, f.values)
    ensures f.errors != [] || !HasAll(f.values) ==>
      && Finish(f).Rejected?
      && forall e :: e in Finish(f).errors <==>
           e in f.errors || (e.MissingField? && e.key in REQUIRED && e.key !in f.values)
    ensures f.errors == [] && HasAll(f.values) && Finish(f).Rejected? ==>
      Finish(f).errors == [if ParseInt(f.values["fixture_format_version"]) != Some(1) then BadVersion
                           else if ParseInt(f.values["tool_exit_code"]).None? then BadExitCode else BadSlack]
  {
    NothingMissing(f.values, REQUIRED);
    MissingAreReported(f.values, REQUIRED);
    assert REQUIRED[0] in REQUIRED && REQUIRED[1] in REQUIRED && REQUIRED[2] in REQUIRED && REQUIRED[3] in REQUIRED
      && REQUIRED[4] in REQUIRED && REQUIRED[5] in REQUIRED;
  }

  lemma {:induction false} MissingAreReported(values: map<string, string>, keys: seq<string>)
    ensures forall e :: e in Missing(values, keys) <==> e.MissingField? && e.key in keys && e.key !in values
  {
    if keys != [] { MissingAreReported(values, keys[1..]); }
  }

  /** Line `line` sets a key that an earlier line has set. */
  ghost predicate Repeats(es: seq<Option<Entry>>, key: string, line: nat) {
    1 <= line <= |es| && Sets(es[line - 1], key) && exists i :: 0 <= i < line - 1 && Sets(es[i], key)
  }

  /** No later line sets the key that line `i` sets. */
  predicate LastSets(es: seq<Option<Entry>>, i: nat)
    requires i < |es|
  {
    es[i].Some? && forall l :: i < l < |es| ==> !Sets(es[l], es[i].value.key)
  }

  /** The errors of the scan are exactly the repetitions, each with its line, counted from 1. */
  lemma {:induction false} ScanFindsRepetitions(es: seq<Option<Entry>>)
    ensures forall e :: e in Collect(es).errors <==> e.DuplicateField? && Repeats(es, e.key, e.line)
    ensures forall key :: key in Collect(es).values <==> exists i :: 0 <= i < |es| && Sets(es[i], key)
  {
    if es != [] {
      ScanFindsRepetitions(es[..|es| - 1]);
      OneMoreScanned(es);
    }
  }

  /** The last value of a key wins. */
  lemma {:induction false} LastValueWins(es: seq<Option<Entry>>, i: nat)
    requires i < |es| && LastSets(es, i)
    ensures es[i].value.key in Collect(es).values && Collect(es).values[es[i].value.key] == es[i].value.value
  {
    var n := |es| - 1;
    if i < n {
      assert forall l :: 0 <= l < n ==> es[..n][l] == es[l];
      assert !Sets(es[n], es[i].value.key);
      LastValueWins(es[..n], i);
    }
  }

  lemma OneMoreScanned(es: seq<Option<Entry>>)
    requires es != []
    requires var before := es[..|es| - 1];
             && (forall e :: e in Collect(before).errors <==> e.DuplicateField? && Repeats(before, e.key, e.line))
             && (forall key :: key in Collect(before).values <==> exists i :: 0 <= i < |before| && Sets(before[i], key))
    ensures forall e :: e in Collect(es).errors <==> e.DuplicateField? && Repeats(es, e.key, e.line)
    ensures forall key :: key in Collect(es).values <==> exists i :: 0 <= i < |es| && Sets(es[i], key)
  {
    var n, before := |es| - 1, es[..|es| - 1];
    forall e: ParseError | e.DuplicateField? ensures Repeats(es, e.key, e.line) <==>
      Repeats(before, e.key, e.line) || (e.line == |es| && Sets(es[n], e.key) && e.key in Collect(before).values)
    {
      assert forall i :: 0 <= i < n ==> before[i] == es[i];
    }
    forall key ensures (exists i :: 0 <= i < |es| && Sets(es[i], key)) <==>
      key in Collect(before).values || Sets(es[n], key)
    {
      assert forall i :: 0 <= i < n ==> before[i] == es[i];
    }
  }

  // ---------------------------------------------------------------- accepted reports name each required field once

  predicate Sets(e: Option<Entry>, key: string) { e.Some? && e.value.key == key }

  /** Entry `i` sets `key` to `value`, and no other entry sets it. */
  ghost predicate SetOnce(es: seq<Option<Entry>>, key: string, value: string, i: nat) {
    && i < |es| && es[i] == Some(Entry(key, value))
    && forall l :: 0 <= l < |es| && Sets(es[l], key) ==> l == i
  }

  /** Without a duplicate error, a key has a value exactly if one entry sets it, and then it is that entry's value. */
  lemma {:induction false} CollectFindsEach(es: seq<Option<Entry>>, key: string)
    requires Collect(es).errors == []
    ensures key in Collect(es).values ==> exists i: nat :: SetOnce(es, key, Collect(es).values[key], i)
    ensures key !in Collect(es).values ==> forall l :: 0 <= l < |es| ==> !Sets(es[l], key)
  {
    if es != [] {
      var n := |es| - 1;
      var before := es[..n];
      CollectFindsEach(before, key);
      assert forall l :: 0 <= l < n ==> before[l] == es[l];
      if Sets(es[n], key) {
        assert SetOnce(es, key, es[n].value.value, n);
      } else if key in Collect(es).values {
        var i: nat :| SetOnce(before, key, Collect(before).values[key], i);
        assert SetOnce(es, key, Collect(es).values[key], i);
      }
    }
  }

  /** Any report that parses OK sets each required field on exactly one line, and that line's value is the one used. */
  lemma AcceptedHasEachOnce(lines: seq<string>, key: string)
    requires Finish(Scan(lines)).Accepted? && key in REQUIRED
    ensures key in Scan(lines).values && exists i: nat :: SetOnce(Entries(lines), key, Scan(lines).values[key], i)
  {
    NothingMissing(Scan(lines).values, REQUIRED);
    CollectFindsEach(Entries(lines), key);
  }

  // ---------------------------------------------------------------- round trip

  predicate PlainKey(key: string) { key != "" && key[0] != 'S' && '=' !in key && Trimmed(key) }

  lemma ShortKeysArePlain()
    ensures PlainKey("run_id") && PlainKey("stage") && PlainKey("corner") && PlainKey("worst_slack")
  {
  }

  lemma LongKeysArePlain()
    ensures PlainKey("fixture_source") && PlainKey("tool_exit_code")
  {
  }

  lemma VersionKeyIsPlain()
    ensures PlainKey("fixture_format_version")
  {
  }

  lemma ValuesAreTrimmed()
    ensures Trimmed("synthetic") && Trimmed("1") && Trimmed("timing") && Trimmed("0")
  {
  }

  lemma FieldLine(key: string, value: string)
    requires PlainKey(key) && Trimmed(value)
    ensures EntryOf(Field(key, value)) == Some(Entry(key, value))
  {
    var line := Field(key, value);
    IndexIs(key, '=', value);
    assert line == key + ['='] + value;
    assert line[0] == key[0];
    assert line[..|key|] == key && line[|key| + 1..] == value;
    TrimmedStays(key);
    TrimmedStays(value);
  }

  lemma NumberWithUnit(p: string, u: Unit)
    requires p != "" && !IsSpace(p[0]) && !IsSpace(p[|p| - 1])
    ensures var s := p + " " + u.Name();
            Trimmed(s) && 2 <= |s| && StripRight(s[..|s| - 2]) == p && s[|s| - 2..] == u.Name()
  {
    var s := p + " " + u.Name();
    assert s[..|s| - 2] == p + " ";
    assert (p + " ")[..|p|] == p;
  }

  lemma NumberWithUnitParses(p: string, d: Decimal, u: Unit)
    requires p != "" && !IsSpace(p[0]) && !IsSpace(p[|p| - 1]) && ParseDecimal(p) == Some(d)
    ensures var s := p + " " + u.Name(); Trimmed(s) && ParseSlack(s) == Some((d, u))
  {
    NumberWithUnit(p, u);
  }

  lemma SlackRoundTrip(d: Decimal, u: Unit)
    requires d.Valid()
    ensures Trimmed(SlackText(d, u)) && ParseSlack(SlackText(d, u)) == Some((d, u))
  {
    PrintedEnds(d);
    DecimalRoundTrip(d);
    NumberWithUnitParses(d.Print(), d, u);
  }

  /** A printed decimal begins with a sign or digit and ends with a digit. */
  lemma PrintedEnds(d: Decimal)
    requires d.Valid()
    ensures var p := d.Print(); p != "" && !IsSpace(p[0]) && !IsSpace(p[|p| - 1]) && NoBreak(p)
  {
    var p := d.Print();
    assert d.whole[0] in d.whole && d.whole[|d.whole| - 1] in d.whole;
    assert p[0] == if d.negative then '-' else d.whole[0];
    if d.fraction == "" {
      assert p[|p| - 1] == d.whole[|d.whole| - 1];
    } else {
      assert d.fraction[|d.fraction| - 1] in d.fraction;
      assert p[|p| - 1] == d.fraction[|d.fraction| - 1];
    }
  }

  predicate PlainField(f: Entry) { PlainKey(f.key) && Trimmed(f.value) }

  function Printed(fields: seq<Entry>): seq<Option<Entry>> {
    [None] + seq(|fields|, i requires 0 <= i < |fields| => Some(fields[i]))
  }

  lemma FieldEntries(fields: seq<Entry>)
    requires forall i :: 0 <= i < |fields| ==> PlainField(fields[i])
    ensures Entries(FieldLines(fields)) == seq(|fields|, i requires 0 <= i < |fields| => Some(fields[i]))
  {
    forall i | 0 <= i < |fields| ensures Entries(FieldLines(fields))[i] == Some(fields[i]) {
      assert PlainField(fields[i]);
      FieldLine(fields[i].key, fields[i].value);
    }
  }

  lemma EntriesSplit(a: seq<string>, b: seq<string>)
    ensures Entries(a + b) == Entries(a) + Entries(b)
  {
  }

  lemma MarkerSetsNothing()
    ensures Entries([MARKER]) == [None]
  {
  }

  lemma ReportEntries(fields: seq<Entry>)
    requires forall i :: 0 <= i < |fields| ==> PlainField(fields[i])
    ensures Entries(ReportLines(fields)) == Printed(fields)
  {
    FieldEntries(fields);
    MarkerSetsNothing();
    EntriesSplit([MARKER], FieldLines(fields));
  }

  predicate DistinctKeys(fields: seq<Entry>) {
    forall i, l :: 0 <= i < l < |fields| ==> fields[i].key != fields[l].key
  }

  /** Exactly these fields were collected, each under its key, without error. */
  ghost predicate Gathered(f: Fields, fields: seq<Entry>) {
    && f.errors == []
    && (forall i :: 0 <= i < |fields| ==> fields[i].key in f.values && f.values[fields[i].key] == fields[i].value)
    && (forall k :: k in f.values ==> exists i :: 0 <= i < |fields| && fields[i].key == k)
  }

  lemma OneMoreGathered(f: Fields, fields: seq<Entry>, e: Entry, line: nat)
    requires Gathered(f, fields) && forall i :: 0 <= i < |fields| ==> fields[i].key != e.key
    ensures Gathered(Add(f, Some(e), line), fields + [e])
  {
    forall k | k in Add(f, Some(e), line).values
      ensures exists i :: 0 <= i < |fields + [e]| && (fields + [e])[i].key == k
    {
      if k == e.key {
        assert (fields + [e])[|fields|].key == k;
      } else {
        var i :| 0 <= i < |fields| && fields[i].key == k;
        assert (fields + [e])[i].key == k;
      }
    }
  }

  /** Fields with distinct keys are collected without error, each under its key. */
  lemma {:induction false} CollectsAll(fields: seq<Entry>)
    requires DistinctKeys(fields)
    ensures Gathered(Collect(Printed(fields)), fields)
  {
    if fields == [] {
      assert Printed(fields)[..0] == [];
    } else {
      var n := |fields| - 1;
            CollectsAll(fields[..n]);
      OneMorePrinted(fields);
      OneMoreGathered(Collect(Printed(fields[..n])), fields[..n], fields[n], n + 2);
      assert fields[..n] + [fields[n]] == fields;
    }
  }

  lemma OneMorePrinted(fields: seq<Entry>)
    requires fields != []
    ensures var n := |fields| - 1;
            Collect(Printed(fields)) == Add(Collect(Printed(fields[..n])), Some(fields[n]), n + 2)
  {
    var n, es := |fields| - 1, Printed(fields);
    assert es[..n + 1] == Printed(fields[..n]);
  }

  /** Lines that set nothing change nothing. */
  lemma {:induction false} NothingAdded(es: seq<Option<Entry>>, more: seq<Option<Entry>>)
    requires forall i :: 0 <= i < |more| ==> more[i] == None
    ensures Collect(es + more) == Collect(es)
  {
    if more == [] {
      assert es + more == es;
    } else {
      var n := |more| - 1;
      NothingAdded(es, more[..n]);
      assert (es + more)[..|es| + n] == es + more[..n];
    }
  }

  lemma MarkerHead()
    ensures NoBreak("SYNTHETIC / NOT GENE")
  {
  }

  lemma MarkerTail()
    ensures NoBreak("RATED BY AN EDA TOOL")
  {
  }

  lemma NoBreakJoined(a: string, b: string)
    requires NoBreak(a) && NoBreak(b)
    ensures NoBreak(a + b)
  {
  }

  lemma MarkerIsTrimmed()
    ensures Trimmed(MARKER)
  {
  }

  lemma MarkerIsALine()
    ensures NoBreak(MARKER) && Trimmed(MARKER)
  {
    MarkerIsTrimmed();
    MarkerHead();
    MarkerTail();
    NoBreakJoined("SYNTHETIC / NOT GENE", "RATED BY AN EDA TOOL");
    assert MARKER == "SYNTHETIC / NOT GENE" + "RATED BY AN EDA TOOL";
  }

  lemma PaddingIsALine()
    ensures NoBreak(PADDING_LINE) && '=' !in PADDING_LINE
  {
  }

  lemma ShortKeysHaveNoBreak()
    ensures NoBreak("run_id") && NoBreak("stage") && NoBreak("corner") && NoBreak("worst_slack")
  {
  }

  lemma LongKeysHaveNoBreak()
    ensures NoBreak("fixture_source") && NoBreak("tool_exit_code")
  {
  }

  lemma VersionKeyHasNoBreak()
    ensures NoBreak("fixture_format_version")
  {
  }

  lemma ValuesHaveNoBreak()
    ensures NoBreak("synthetic") && NoBreak("1") && NoBreak("timing") && NoBreak("0")
  {
  }

  predicate UnbrokenField(f: Entry) { NoBreak(f.key) && NoBreak(f.value) }

  lemma FieldsAreUnbroken(fields: seq<Entry>)
    requires forall i :: 0 <= i < |fields| ==> UnbrokenField(fields[i])
    ensures forall l :: l in FieldLines(fields) ==> NoBreak(l)
  {
    forall l | l in FieldLines(fields) ensures NoBreak(l) {
      var i :| 0 <= i < |fields| && FieldLines(fields)[i] == l;
      assert UnbrokenField(fields[i]);
    }
  }

  lemma LinesAreUnbroken(fields: seq<Entry>)
    requires forall i :: 0 <= i < |fields| ==> UnbrokenField(fields[i])
    ensures forall l :: l in ReportLines(fields) ==> NoBreak(l)
  {
    FieldsAreUnbroken(fields);
    MarkerIsALine();
  }

  /** What padding adds: nothing, or a comment and a line of x. */
  function Padding(lines: seq<string>, artifactBytes: nat): seq<string> {
    var size := |Lines(lines)|;
    if artifactBytes > size then [PADDING_LINE, seq(artifactBytes - size, _ => 'x')] else []
  }

  /** The payload has the lines that were printed and the padding's. */
  lemma PayloadLines(lines: seq<string>, artifactBytes: nat)
    requires forall l :: l in lines ==> NoBreak(l)
    ensures SplitLines(Payload(lines, artifactBytes)) == lines + Padding(lines, artifactBytes)
  {
    var text := Lines(lines);
    if artifactBytes > |text| {
      var xs := seq(artifactBytes - |text|, _ => 'x');
      PaddingLines(xs);
      SplitJoined(lines, PADDING_LINE + "\n" + xs);
      Associate(text, PADDING_LINE + "\n", xs);
      Associate(text, PADDING_LINE, "\n");
    } else {
      SplitJoined(lines, "");
      assert text + "" == text;
    }
  }

  lemma PaddingLines(xs: string)
    requires xs != "" && forall c :: c in xs ==> c == 'x'
    ensures SplitLines(PADDING_LINE + "\n" + xs) == [PADDING_LINE, xs]
  {
    PaddingIsALine();
    SplitOne(PADDING_LINE, xs);
    UnbrokenLine(xs);
  }

  lemma PaddingSetsNothing(lines: seq<string>, artifactBytes: nat)
    ensures var es := Entries(Padding(lines, artifactBytes)); forall i :: 0 <= i < |es| ==> es[i] == None
  {
    PaddingIsALine();
  }

  /** The printed fields are collected, whatever the padding. */
  lemma PayloadFields(fields: seq<Entry>, artifactBytes: nat)
    requires DistinctKeys(fields) && forall i :: 0 <= i < |fields| ==> UnbrokenField(fields[i]) && PlainField(fields[i])
    ensures var text := Payload(ReportLines(fields), artifactBytes);
            FirstLine(text) == MARKER && Scan(SplitLines(text)) == Collect(Printed(fields))
  {
    var lines, pad := ReportLines(fields), Padding(ReportLines(fields), artifactBytes);
    LinesAreUnbroken(fields);
    PayloadLines(lines, artifactBytes);
    assert (lines + pad)[0] == MARKER;
    MarkerIsALine();
    TrimmedStays(MARKER);
    ReportEntries(fields);
    PaddingSetsNothing(lines, artifactBytes);
    EntriesSplit(lines, pad);
    NothingAdded(Printed(fields), Entries(pad));
  }

  lemma FieldsAreDistinct(job: string, corner: string, slack: string)
    ensures DistinctKeys(ReportFields(job, corner, slack))
  {
    assert "run_id"[0] != "corner"[0] && "fixture_source"[0] != "tool_exit_code"[0];
  }

  /**
   * Round trip. For any line-break-free, trimmed job id and corner, either unit, any plain decimal slack and any
   * padding, the printed report parses, with the same job id, corner, slack and unit, and the slack in ns.
   */
  lemma RoundTrip(job: string, corner: string, slack: Decimal, u: Unit, artifactBytes: nat)
    requires NoBreak(job) && Trimmed(job) && NoBreak(corner) && Trimmed(corner) && slack.Valid()
    ensures var text := Payload(ReportLines(ReportFields(job, corner, SlackText(slack, u))), artifactBytes);
            && FirstLine(text) == MARKER
            && Finish(Scan(SplitLines(text))) == Accepted(Metrics(job, "timing", corner, 0, InNs(slack, u), slack, u))
  {
    var value := SlackText(slack, u);
    SlackRoundTrip(slack, u);
    SlackHasNoBreak(slack, u);
    var fields := ReportFields(job, corner, value);
    FieldsArePlain(job, corner, value);
    FieldsAreDistinct(job, corner, value);
    PayloadFields(fields, artifactBytes);
    CollectsAll(fields);
    FinishesAs(Collect(Printed(fields)), fields, job, corner, slack, u);
  }

  lemma FieldsArePlain(job: string, corner: string, slack: string)
    requires NoBreak(job) && Trimmed(job) && NoBreak(corner) && Trimmed(corner) && NoBreak(slack) && Trimmed(slack)
    ensures forall i :: 0 <= i < |ReportFields(job, corner, slack)| ==>
              UnbrokenField(ReportFields(job, corner, slack)[i]) && PlainField(ReportFields(job, corner, slack)[i])
  {
    ShortKeysArePlain();
    LongKeysArePlain();
    VersionKeyIsPlain();
    ValuesAreTrimmed();
    ShortKeysHaveNoBreak();
    LongKeysHaveNoBreak();
    VersionKeyHasNoBreak();
    ValuesHaveNoBreak();
  }

  lemma SlackHasNoBreak(slack: Decimal, u: Unit)
    requires slack.Valid()
    ensures NoBreak(SlackText(slack, u))
  {
    PrintedEnds(slack);
  }

  lemma FinishesAs(f: Fields, fields: seq<Entry>, job: string, corner: string, slack: Decimal, u: Unit)
    requires slack.Valid() && fields == ReportFields(job, corner, SlackText(slack, u)) && f.errors == []
    requires forall i :: 0 <= i < |fields| ==> fields[i].key in f.values && f.values[fields[i].key] == fields[i].value
    ensures Finish(f) == Accepted(Metrics(job, "timing", corner, 0, InNs(slack, u), slack, u))
  {
    SlackRoundTrip(slack, u);
    NothingMissing(f.values, REQUIRED);
    assert fields[1].key == REQUIRED[0] && fields[2].key == REQUIRED[1] && fields[3].key == REQUIRED[2];
    assert fields[4].key == REQUIRED[3] && fields[5].key == REQUIRED[4] && fields[6].key == REQUIRED[5];
    DigitsRead();
  }

  lemma DigitsRead()
    ensures ParseInt("1") == Some(1) && ParseInt("0") == Some(0)
  {
    assert "1"[..0] == "" && "0"[..0] == "";
    assert Filter("1") == "1" && Filter("0") == "0";
  }

  // ---------------------------------------------------------------- the broken profiles

  lemma {:induction false} MissingJoined(values: map<string, string>, a: seq<string>, b: seq<string>)
    ensures Missing(values, a + b) == Missing(values, a) + Missing(values, b)
  {
    if a == [] {
      assert a + b == b;
    } else {
      assert (a + b)[1..] == a[1..] + b;
      MissingJoined(values, a[1..], b);
    }
  }

  /** The `missing_worst_slack` profile is rejected for exactly that field, with any padding. */
  lemma MissingSlackIsRejected(job: string, corner: string, slack: Decimal, u: Unit, artifactBytes: nat)
    requires NoBreak(job) && Trimmed(job) && NoBreak(corner) && Trimmed(corner) && slack.Valid()
    ensures var text := Payload(ReportLines(ReportFields(job, corner, SlackText(slack, u))[..6]), artifactBytes);
            FirstLine(text) == MARKER && Finish(Scan(SplitLines(text))) == Rejected([MissingField("worst_slack")])
  {
    var value := SlackText(slack, u);
    SlackRoundTrip(slack, u);
    SlackHasNoBreak(slack, u);
    var all := ReportFields(job, corner, value);
    var fields := all[..6];
    FieldsArePlain(job, corner, value);
    FieldsAreDistinct(job, corner, value);
    PayloadFields(fields, artifactBytes);
    CollectsAll(fields);
    OnlySlackMissing(Collect(Printed(fields)), all);
  }

  lemma OnlySlackMissing(f: Fields, all: seq<Entry>)
    requires |all| == 7 && DistinctKeys(all) && Gathered(f, all[..6])
    requires all[1].key == REQUIRED[0] && all[2].key == REQUIRED[1] && all[3].key == REQUIRED[2]
    requires all[4].key == REQUIRED[3] && all[5].key == REQUIRED[4] && all[6].key == REQUIRED[5]
    ensures Finish(f) == Rejected([MissingField("worst_slack")])
  {
    var present, absent := REQUIRED[..5], [REQUIRED[5]];
    assert REQUIRED == present + absent;
    MissingJoined(f.values, present, absent);
    forall k | k in present ensures k in f.values {
      var i :| 0 <= i < 5 && present[i] == k;
      assert all[..6][i + 1].key == k;
    }
    NothingMissing(f.values, present);
    assert all[6].key !in f.values;
    assert Missing(f.values, absent) == [MissingField(REQUIRED[5])] + Missing(f.values, absent[1..]);
  }

  /** The `malformed_unit` profile is rejected for its slack. */
  lemma MalformedUnitIsRejected(job: string, corner: string, slack: Decimal, artifactBytes: nat)
    requires NoBreak(job) && Trimmed(job) && NoBreak(corner) && Trimmed(corner) && slack.Valid()
    ensures var text := Payload(ReportLines(ReportFields(job, corner, slack.Print() + " cycles")), artifactBytes);
            FirstLine(text) == MARKER && Finish(Scan(SplitLines(text))) == Rejected([BadSlack])
  {
    var value := slack.Print() + " cycles";
    PrintedEnds(slack);
    assert value[|value| - 1] == 's' && value[|value| - 2] == 'e';
    var fields := ReportFields(job, corner, value);
    FieldsArePlain(job, corner, value);
    FieldsAreDistinct(job, corner, value);
    PayloadFields(fields, artifactBytes);
    CollectsAll(fields);
    BadSlackRejected(Collect(Printed(fields)), fields, job, corner, value);
  }

  lemma BadSlackRejected(f: Fields, fields: seq<Entry>, job: string, corner: string, value: string)
    requires fields == ReportFields(job, corner, value) && Gathered(f, fields)
    requires 2 <= |value| && value[|value| - 1] == 's' && value[|value| - 2] == 'e'
    ensures Finish(f) == Rejected([BadSlack])
  {
    NothingMissing(f.values, REQUIRED);
    assert fields[1].key == REQUIRED[0] && fields[2].key == REQUIRED[1] && fields[3].key == REQUIRED[2];
    assert fields[4].key == REQUIRED[3] && fields[5].key == REQUIRED[4] && fields[6].key == REQUIRED[5];
    DigitsRead();
    assert value[|value| - 2..][0] == 'e';
  }
}
