/** The records behind the metric, and what makes one valid. */
module ApiRecords {
  import opened Common
  import opened Decimal
  import opened PrometheusText

  datatype Record = Record(group: string, version: string, resource: string, subresource: string, removedRelease: string)

  // ---- names ----

  predicate IsLowerAlphaNumeric(c: char) { 'a' <= c <= 'z' || '0' <= c <= '9' }

  /** Lower-case letters and digits, with hyphens inside. */
  predicate IsDnsLabel(s: string) {
    && 0 < |s| <= 63 && IsLowerAlphaNumeric(s[0]) && IsLowerAlphaNumeric(s[|s| - 1])
    && forall i :: 0 < i < |s| - 1 ==> IsLowerAlphaNumeric(s[i]) || s[i] == '-'
  }

  /** The text before the first dot, and the text behind it if there is a dot. */
  function Cut(s: string, done: string): (string, Option<string>)
    decreases |s|
  {
    if s == "" then (done, None) else if s[0] == '.' then (done, Some(s[1..])) else Cut(s[1..], done + [s[0]])
  }

  lemma {:induction false} CutIsShorter(s: string, done: string)
    ensures Cut(s, done).1.Some? ==> |Cut(s, done).1.value| < |s|
    decreases |s|
  {
    if s != "" && s[0] != '.' { CutIsShorter(s[1..], done + [s[0]]); }
  }

  predicate AllDnsLabels(s: string)
    decreases |s|
  {
    CutIsShorter(s, "");
    var (first, rest) := Cut(s, "");
    IsDnsLabel(first) && (rest.Some? ==> AllDnsLabels(rest.value))
  }

  predicate IsDnsSubdomain(s: string) { 0 < |s| <= 253 && AllDnsLabels(s) }

  predicate IsApiServiceName(name: string) {
    var (version, group) := Cut(name, "");
    |name| <= 253 && IsDnsLabel(version) && group.Some? && (group.value != "" ==> IsDnsSubdomain(group.value))
  }

  predicate IsResourceName(s: string, allowEmpty: bool) { if s == "" then allowEmpty else IsDnsLabel(s) }

  method ValidDeprecatedApiResourceName(value: string, allowEmpty: bool) returns (ok: bool)
    ensures ok == IsResourceName(value, allowEmpty)
  {
    if value == "" {
      return allowEmpty;
    }
    if |value| > 63 || !IsLowerAlphaNumeric(value[0]) || !IsLowerAlphaNumeric(value[|value| - 1]) {
      return false;
    }
    var index := 1;
    while index < |value| - 1
      invariant 1 <= index && forall i :: 0 < i < index && i < |value| - 1 ==> IsLowerAlphaNumeric(value[i]) || value[i] == '-'
    {
      if !IsLowerAlphaNumeric(value[index]) && value[index] != '-' {
        return false;
      }
      index := index + 1;
    }
    ok := true;
  }

  // ---- releases ----

  const MAX_NUMERIC_PART := 65535

  function DigitsEnd(s: string, p: nat): (q: nat)
    requires p <= |s|
    ensures p <= q <= |s| && (q < |s| ==> !IsDigit(s[q])) && forall i :: p <= i < q ==> IsDigit(s[i])
    decreases |s| - p
  {
    if p < |s| && IsDigit(s[p]) then DigitsEnd(s, p + 1) else p
  }

  /** A canonical numeral of at most 16 bits, and the position behind it. */
  function VersionNumber(s: string, p: nat): (r: Option<(nat, nat)>)
    requires p <= |s|
    ensures r.Some? ==> p < r.value.1 <= |s| && s[p..r.value.1] == Format(r.value.0) && r.value.0 <= MAX_NUMERIC_PART
  {
    var t := s[p..DigitsEnd(s, p)];
    if Canonical(t) && Value(t) <= MAX_NUMERIC_PART then
      CanonicalIsFormatted(t);
      Some((Value(t), DigitsEnd(s, p)))
    else None
  }

  method ParseVersionNumber(value: string, start: nat) returns (r: Option<(nat, nat)>)
    requires start <= |value|
    ensures r == VersionNumber(value, start)
  {
    var end := start;
    while end < |value| && '0' <= value[end] <= '9'
      invariant start <= end <= |value| && DigitsEnd(value, end) == DigitsEnd(value, start)
    {
      end := end + 1;
    }
    if end == start || (end - start > 1 && value[start] == '0') {
      return None;
    }
    var parsed := Value(value[start..end]);
    if parsed > MAX_NUMERIC_PART {
      return None;
    }
    r := Some((parsed, end));
  }

  datatype Release = Release(major: nat, minor: nat)

  function ParseRelease(s: string): Option<Release> {
    match VersionNumber(s, 0)
    case None => None
    case Some((major, next)) =>
      if next == |s| || s[next] != '.' then None
      else match VersionNumber(s, next + 1)
        case None => None
        case Some((minor, end)) => if end == |s| then Some(Release(major, minor)) else None
  }

  /** A release determines its text, so release parsing is injective. */
  lemma ReleaseIsPrinted(s: string)
    requires ParseRelease(s).Some?
    ensures var r := ParseRelease(s).value; s == Format(r.major) + "." + Format(r.minor) && r.major <= MAX_NUMERIC_PART && r.minor <= MAX_NUMERIC_PART
  {
    var (_, next) := VersionNumber(s, 0).value;
    assert s == s[0..next] + "." + s[next + 1..];
  }

  lemma ScansNumber(s: string, p: nat, n: nat)
    requires n <= MAX_NUMERIC_PART && p + |Format(n)| <= |s| && s[p..p + |Format(n)|] == Format(n)
    requires p + |Format(n)| < |s| ==> !IsDigit(s[p + |Format(n)|])
    ensures VersionNumber(s, p) == Some((n, p + |Format(n)|))
  {
    FormatIsCanonical(n);
    forall i | p <= i < p + |Format(n)|
      ensures IsDigit(s[i])
    {
      assert s[p..p + |Format(n)|][i - p] == s[i];
    }
    assert DigitsEnd(s, p) == p + |Format(n)|;
  }

  /** And every pair of 16-bit numbers is the release of its text. */
  lemma PrintedIsRelease(r: Release)
    requires r.major <= MAX_NUMERIC_PART && r.minor <= MAX_NUMERIC_PART
    ensures ParseRelease(Format(r.major) + "." + Format(r.minor)) == Some(r)
  {
    var a, b := Format(r.major), Format(r.minor);
    var s := a + "." + b;
    assert s[0..|a|] == a && s[|a|] == '.' && s[|a| + 1..|a| + 1 + |b|] == b;
    ScansNumber(s, 0, r.major);
    ScansNumber(s, |a| + 1, r.minor);
  }

  lemma ReleaseIsShort(s: string)
    requires ParseRelease(s).Some?
    ensures |s| <= 11
  {
    var r := ParseRelease(s).value;
    ReleaseIsPrinted(s);
    FormatIsCanonical(r.major);
    FormatIsCanonical(r.minor);
    assert Power(5) == 100000;
    NumeralIsShort(Format(r.major), 5);
    NumeralIsShort(Format(r.minor), 5);
  }

  predicate ValidRecord(r: Record) {
    && IsApiServiceName(r.version + "." + r.group) && IsResourceName(r.resource, false) && IsResourceName(r.subresource, true)
    && ParseRelease(r.removedRelease).Some?
  }

  // ---- valid names need no escapes ----

  lemma {:induction false} CutIsKept(s: string, done: string)
    ensures var (first, rest) := Cut(s, done); done + s == first + if rest.Some? then "." + rest.value else ""
    decreases |s|
  {
    if s != "" && s[0] != '.' {
      CutIsKept(s[1..], done + [s[0]]);
      assert done + [s[0]] + s[1..] == done + s;
    } else if s != "" {
      assert s == "." + s[1..];
    }
  }

  lemma LabelIsPlain(s: string)
    requires IsDnsLabel(s)
    ensures Plain(s)
  {
  }

  lemma {:induction false} LabelsArePlain(s: string)
    requires AllDnsLabels(s)
    ensures Plain(s)
    decreases |s|
  {
    CutIsShorter(s, "");
    CutIsKept(s, "");
    var (first, rest) := Cut(s, "");
    assert "" + s == s;
    LabelIsPlain(first);
    if rest.Some? {
      LabelsArePlain(rest.value);
    }
  }

  lemma ServiceNameIsPlain(name: string)
    requires IsApiServiceName(name)
    ensures Plain(name)
  {
    CutIsKept(name, "");
    var (version, group) := Cut(name, "");
    assert "" + name == name;
    LabelIsPlain(version);
    if group.value != "" {
      LabelsArePlain(group.value);
    }
  }

  lemma PartsArePlain(a: string, b: string)
    requires Plain(a + "." + b)
    ensures Plain(a) && Plain(b)
  {
    var s := a + "." + b;
    assert forall i :: 0 <= i < |a| ==> a[i] == s[i];
    assert forall i :: 0 <= i < |b| ==> b[i] == s[|a| + 1 + i];
  }

  lemma ValidRecordIsPlain(r: Record)
    requires ValidRecord(r)
    ensures Plain(r.group) && Plain(r.version) && Plain(r.resource) && Plain(r.subresource) && Plain(r.removedRelease)
  {
    ServiceNameIsPlain(r.version + "." + r.group);
    PartsArePlain(r.version, r.group);
    LabelIsPlain(r.resource);
    if r.subresource != "" { LabelIsPlain(r.subresource); }
    var release := ParseRelease(r.removedRelease).value;
    ReleaseIsPrinted(r.removedRelease);
    FormatIsCanonical(release.major);
    FormatIsCanonical(release.minor);
  }

  lemma ValidRecordIsPrintable(r: Record)
    requires ValidRecord(r)
    ensures |r.group| <= MAX_LABEL_BYTES && |r.version| <= MAX_LABEL_BYTES && |r.resource| <= MAX_LABEL_BYTES
    ensures |r.subresource| <= MAX_LABEL_BYTES && |r.removedRelease| <= MAX_LABEL_BYTES
  {
    ReleaseIsShort(r.removedRelease);
  }
}

/** internal/kubernetes/deprecated_api.go: metric lines. */
module MetricLines {
  import opened Common
  import opened Decimal
  import Sorting
  import opened PrometheusText
  import opened MetricNumber
  import opened ApiRecords

  const METRIC := "apiserver_requested_deprecated_apis"

  /** The label names; distinct, and names in the sense of the text format. */
  datatype Names = Names(group: string, version: string, resource: string, subresource: string, removedRelease: string)

  const NAMES := Names("group", "version", "resource", "subresource", "removed_release")

  predicate GoodNames(k: Names) {
    && IsName(k.group) && IsName(k.version) && IsName(k.resource) && IsName(k.subresource) && IsName(k.removedRelease)
    && k.group != k.version && k.group != k.resource && k.group != k.subresource && k.group != k.removedRelease
    && k.version != k.resource && k.version != k.subresource && k.version != k.removedRelease
    && k.resource != k.subresource && k.resource != k.removedRelease && k.subresource != k.removedRelease
  }

  function NameSet(k: Names): set<string> { {k.group, k.version, k.resource, k.subresource, k.removedRelease} }

  function KnownIn(k: Names): Known { name => name in NameSet(k) }

  function ValueOf(labels: map<string, string>, name: string): string { if name in labels then labels[name] else "" }

  function RecordOf(k: Names, labels: map<string, string>): Record {
    Record(ValueOf(labels, k.group), ValueOf(labels, k.version), ValueOf(labels, k.resource),
           ValueOf(labels, k.subresource), ValueOf(labels, k.removedRelease))
  }

  predicate IsMetricNameCharacter(c: char) {
    'a' <= c <= 'z' || 'A' <= c <= 'Z' || '0' <= c <= '9' || c == '_' || c == ':'
  }

  function TrimRight(t: string): string
    decreases |t|
  {
    if t != "" && IsSpace(t[|t| - 1]) then TrimRight(t[..|t| - 1]) else t
  }

  function Trim(t: string): string { TrimRight(Skip(t)) }

  datatype Line = Irrelevant | Rejected | Accepted(record: Record)

  /** What follows the metric name. */
  function ParseSample(k: Names, t: string): Line {
    match LabelSet(KnownIn(k), t)
    case Err(_) => Rejected
    case Ok(labels) =>
      var record := RecordOf(k, labels.value);
      if labels.rest == "" || !IsSpace(labels.rest[0]) || !ValidMetricValue(Trim(labels.rest)) then Rejected
      else if |labels.value| != 5 || !ValidRecord(record) then Rejected
      else Accepted(record)
  }

  function ParseLine(metric: string, k: Names, line: string): Line {
    if !(metric <= line) then (if metric <= Skip(line) then Rejected else Irrelevant)
    else if |line| > |metric| && IsMetricNameCharacter(line[|metric|]) then Irrelevant
    else ParseSample(k, line[|metric|..])
  }

  method ParseDeprecatedApiMetricLine(metric: string, k: Names, line: string) returns (r: Line)
    ensures r == ParseLine(metric, k, line)
  {
    if !(metric <= line) {
      var position := SkipPrometheusSpaces(line, 0);
      assert line[0..] == line;
      return if metric <= line[position..] then Rejected else Irrelevant;
    }
    if |line| > |metric| && IsMetricNameCharacter(line[|metric|]) {
      return Irrelevant;
    }
    var labels := ParseLabelSet(KnownIn(k), line, |metric|);
    if labels.Err? {
      return Rejected;
    }
    var next := labels.value.next;
    if next >= |line| || !IsSpace(line[next]) {
      return Rejected;
    }
    var number := ValidDeprecatedApiMetricValue(Trim(line[next..]));
    if !number {
      return Rejected;
    }
    var record := RecordOf(k, labels.value.value);
    var resource := ValidDeprecatedApiResourceName(record.resource, false);
    var subresource := ValidDeprecatedApiResourceName(record.subresource, true);
    if |labels.value.value| != 5 || !IsApiServiceName(record.version + "." + record.group) || !resource || !subresource {
      return Rejected;
    }
    if ParseRelease(record.removedRelease).None? {
      return Rejected;
    }
    r := Accepted(record);
  }

  // ---- printing and parsing a line ----

  function LabelsOf(k: Names, r: Record): seq<Label> {
    [Label(k.group, r.group), Label(k.version, r.version), Label(k.resource, r.resource),
     Label(k.subresource, r.subresource), Label(k.removedRelease, r.removedRelease)]
  }

  /** A layout prints the record if its labels are those of the record, in any order, and its spaces are spaces. */
  ghost predicate Lays(k: Names, r: Record, ps: seq<Printed>) {
    && multiset(Items(ps)) == multiset(LabelsOf(k, r))
    && forall i :: 0 <= i < |ps| ==>
         AllSpaces(ps[i].before) && AllSpaces(ps[i].beforeEquals) && AllSpaces(ps[i].afterEquals) && AllSpaces(ps[i].after)
  }

  function PrintLine(metric: string, ps: seq<Printed>, gap: string, number: string, tail: string): string
    requires ps != []
  {
    metric + PrintSet(ps, gap + (number + tail))
  }

  lemma {:induction false} GatherHolds(items: seq<Label>, labels: map<string, string>)
    requires NewNames(items, labels)
    ensures var g := Gather(items, labels);
            && |g| == |labels| + |items|
            && (forall name :: name in labels ==> name in g && g[name] == labels[name])
            && (forall i :: 0 <= i < |items| ==> items[i].name in g && g[items[i].name] == items[i].value)
  {
    if items != [] {
      NewRest(items, labels);
      GatherHolds(items[1..], labels[items[0].name := items[0].value]);
    }
  }

  lemma FiveNames(k: Names, r: Record, items: seq<Label>)
    requires GoodNames(k) && multiset(items) == multiset(LabelsOf(k, r))
    ensures |items| == 5 && NewNames(items, map[]) && forall l :: l in LabelsOf(k, r) <==> l in items
  {
    var five := LabelsOf(k, r);
    Sorting.SameMembers(items, five);
    Sorting.SameMembers(five, items);
    forall i, j | 0 <= i < j < |items|
      ensures items[i].name != items[j].name
    {
      if items[i].name == items[j].name {
        assert items[i] in five && items[j] in five;
        assert items[i] == items[j];
        Sorting.AtLeastTwice(items, i, j);
        OnceInFive(k, r, items[i]);
      }
    }
  }

  lemma OnceInFive(k: Names, r: Record, l: Label)
    requires GoodNames(k)
    ensures multiset(LabelsOf(k, r))[l] <= 1
  {
  }

  lemma GatheredRecord(k: Names, r: Record, items: seq<Label>)
    requires GoodNames(k) && multiset(items) == multiset(LabelsOf(k, r))
    ensures RecordOf(k, Gather(items, map[])) == r && |Gather(items, map[])| == 5
  {
    var five := LabelsOf(k, r);
    FiveNames(k, r, items);
    GatherHolds(items, map[]);
    forall i | 0 <= i < 5
      ensures ValueOf(Gather(items, map[]), five[i].name) == five[i].value
    {
      assert five[i] in items;
    }
    assert five[0].name == k.group && five[1].name == k.version && five[2].name == k.resource;
    assert five[3].name == k.subresource && five[4].name == k.removedRelease;
  }

  /** A numeral has no spaces. */
  lemma NumeralIsSolid(n: Numeral)
    requires WellFormed(n)
    ensures forall c :: c in Print(n) ==> !IsSpace(c)
  {
    assert forall c :: c in n.whole || c in n.fraction ==> IsDigit(c);
    assert n.exponent.Some? ==> forall c :: c in n.exponent.value.digits ==> IsDigit(c);
  }

  lemma {:induction false} TrimsRight(number: string, tail: string)
    requires AllSpaces(tail) && number != "" && !IsSpace(number[|number| - 1])
    ensures TrimRight(number + tail) == number
    decreases |tail|
  {
    if tail == "" {
      assert number + tail == number;
    } else {
      TrimsRight(number, tail[..|tail| - 1]);
      var t := number + tail;
      assert t[..|t| - 1] == number + tail[..|tail| - 1] && t[|t| - 1] == tail[|tail| - 1];
    }
  }

  lemma TrimsNumber(gap: string, number: string, tail: string)
    requires AllSpaces(gap) && AllSpaces(tail) && ValidMetricValue(number)
    ensures Trim(gap + (number + tail)) == number
  {
    ScannedIsPrinted(number);
    NumeralIsSolid(Scan(number).value);
    assert number[0] in number && number[|number| - 1] in number && (number + tail)[0] == number[0];
    SkipsSpaces(gap, number + tail);
    TrimsRight(number, tail);
  }

  lemma LaidLabelsArePrintable(k: Names, r: Record, ps: seq<Printed>)
    requires GoodNames(k) && ValidRecord(r) && Lays(k, r, ps)
    ensures |ps| == 5 && NewNames(Items(ps), map[]) && forall i :: 0 <= i < |ps| ==> Printable(KnownIn(k), ps[i])
  {
    FiveNames(k, r, Items(ps));
    ValidRecordIsPrintable(r);
    forall i | 0 <= i < |ps|
      ensures Printable(KnownIn(k), ps[i])
    {
      assert Items(ps)[i] in LabelsOf(k, r);
    }
  }

  lemma SampleRoundTrip(k: Names, r: Record, ps: seq<Printed>, rest: string)
    requires GoodNames(k) && ValidRecord(r) && Lays(k, r, ps) && ps != []
    requires rest != "" && IsSpace(rest[0]) && ValidMetricValue(Trim(rest))
    ensures ParseSample(k, PrintSet(ps, rest)) == Accepted(r)
  {
    LaidLabelsArePrintable(k, r, ps);
    LabelSetRoundTrip(KnownIn(k), ps, rest);
    GatheredRecord(k, r, Items(ps));
  }

  lemma AfterMetric(metric: string, k: Names, t: string)
    requires t != "" && t[0] == '{'
    ensures ParseLine(metric, k, metric + t) == ParseSample(k, t)
  {
    assert (metric + t)[|metric|..] == t && (metric + t)[|metric|] == '{';
  }

  /** Round trip: any valid record, its labels in any order, with any legal spaces and escapes, any
      text of the value one and any trailing space, parses back to itself. */
  lemma LineRoundTrip(metric: string, k: Names, r: Record, ps: seq<Printed>, gap: string, number: string, tail: string)
    requires GoodNames(k) && ValidRecord(r) && Lays(k, r, ps) && ps != []
    requires gap != "" && AllSpaces(gap) && AllSpaces(tail) && ValidMetricValue(number)
    ensures ParseLine(metric, k, PrintLine(metric, ps, gap, number, tail)) == Accepted(r)
  {
    var rest := gap + (number + tail);
    assert rest[0] == gap[0];
    TrimsNumber(gap, number, tail);
    SampleRoundTrip(k, r, ps, rest);
    AfterMetric(metric, k, PrintSet(ps, rest));
  }

  // ---- what is accepted was printed ----

  lemma {:induction false} TrimmedSpaces(t: string) returns (tail: string)
    ensures AllSpaces(tail) && t == TrimRight(t) + tail
    decreases |t|
  {
    if t != "" && IsSpace(t[|t| - 1]) {
      var more := TrimmedSpaces(t[..|t| - 1]);
      tail := more + [t[|t| - 1]];
      assert t == t[..|t| - 1] + [t[|t| - 1]];
    } else {
      tail := "";
    }
  }

  /** The labels of an accepted line are those of its record. */
  lemma LabelsAreOfRecord(k: Names, labels: map<string, string>, name: string)
    requires name in labels && name in NameSet(k)
    ensures Label(name, labels[name]) in LabelsOf(k, RecordOf(k, labels))
  {
    var r := RecordOf(k, labels);
    var five := LabelsOf(k, r);
    assert five[0] in five && five[1] in five && five[2] in five && five[3] in five && five[4] in five;
  }

  lemma FiveArePlain(k: Names, r: Record, l: Label)
    requires ValidRecord(r) && l in LabelsOf(k, r)
    ensures Plain(l.value)
  {
    ValidRecordIsPlain(r);
  }

  lemma ItemsOfRecord(k: Names, items: seq<Label>, labels: map<string, string>)
    requires NewNames(items, map[]) && labels == Gather(items, map[]) && |labels| == 5 && labels.Keys <= NameSet(k)
    ensures multiset(items) == multiset(LabelsOf(k, RecordOf(k, labels)))
  {
    var five := LabelsOf(k, RecordOf(k, labels));
    GatherHolds(items, map[]);
    forall l | l in items
      ensures l in five
    {
      var i :| 0 <= i < |items| && items[i] == l;
      LabelsAreOfRecord(k, labels, items[i].name);
    }
    Sorting.AllOfThem(items, five);
  }

  lemma AcceptedSampleIsPrinted(k: Names, t: string, r: Record) returns (ps: seq<Printed>, rest: string)
    requires ParseSample(k, t) == Accepted(r)
    ensures ps != [] && Lays(k, r, ps) && t == PrintSet(ps, rest)
    ensures rest != "" && IsSpace(rest[0]) && ValidMetricValue(Trim(rest))
  {
    var known := KnownIn(k);
    var labels := LabelSet(known, t).value.value;
    rest := LabelSet(known, t).value.rest;
    forall n | n in labels
      ensures n in NameSet(k) && Plain(labels[n])
    {
      LabelsAreKnown(known, Skip(t[1..]), map[], n);
      LabelsAreOfRecord(k, labels, n);
      FiveArePlain(k, r, Label(n, labels[n]));
    }
    ps := LabelSetIsPrinted(known, t, labels, rest);
    ItemsOfRecord(k, Items(ps), labels);
  }

  /** The converse of the round trip: every accepted line is the print of its record, for some order of
      the labels, some spaces, some text of the value one and some trailing spaces. */
  lemma AcceptedLineIsPrinted(metric: string, k: Names, line: string, r: Record)
    returns (ps: seq<Printed>, gap: string, number: string, tail: string)
    requires ParseLine(metric, k, line) == Accepted(r)
    ensures ps != [] && ValidRecord(r) && Lays(k, r, ps)
    ensures gap != "" && AllSpaces(gap) && AllSpaces(tail) && ValidMetricValue(number)
    ensures line == PrintLine(metric, ps, gap, number, tail)
  {
    var t := line[|metric|..];
    assert line == metric + t;
    var rest;
    ps, rest := AcceptedSampleIsPrinted(k, t, r);
    gap := SkippedSpaces(rest);
    number := Trim(rest);
    tail := TrimmedSpaces(Skip(rest));
    assert rest == gap + (number + tail);
  }

  lemma NamesAreGood()
    ensures GoodNames(NAMES)
  {
    assert |NAMES.group| == 5 && |NAMES.version| == 7 && |NAMES.resource| == 8 && |NAMES.subresource| == 11 && |NAMES.removedRelease| == 15;
  }
}

/** DeprecatedAPIRequests: all lines of a scrape. */
module DeprecatedApi {
  import opened Common
  import opened Decimal
  import opened ApiRecords
  import opened MetricLines
  import FieldOrder
  import opened Sorting

  const MAX_LINE_BYTES := 64 * 1024
  const MAX_SAMPLES := 512

  /** A line as the scanner hands it over, parsed after dropping a carriage return. */
  type Parser = string -> Line

  function ParserOf(metric: string, k: Names): Parser {
    line =>
      if |line| > MAX_LINE_BYTES then Rejected
      else ParseLine(metric, k, if line != "" && line[|line| - 1] == '\r' then line[..|line| - 1] else line)
  }

  /** The records so far, extended line by line. */
  function Collect(parse: Parser, lines: seq<string>, records: seq<Record>): Result<seq<Record>>
    decreases |lines|
  {
    if lines == [] then Ok(records)
    else match parse(lines[0])
      case Rejected => Err(Upstream)
      case Irrelevant => Collect(parse, lines[1..], records)
      case Accepted(r) =>
        if |records| >= MAX_SAMPLES || r in records then Err(Upstream) else Collect(parse, lines[1..], records + [r])
  }

  function RecordsOf(parse: Parser, lines: seq<string>): seq<Record> {
    if lines == [] then []
    else RecordIn(parse(lines[0])) + RecordsOf(parse, lines[1..])
  }

  function RecordIn(line: Line): seq<Record> { match line case Accepted(r) => [r] case _ => [] }

  ghost predicate NoneRejected(parse: Parser, lines: seq<string>) {
    forall line :: line in lines ==> !parse(line).Rejected?
  }

  lemma DistinctGrows(records: seq<Record>, r: Record, more: seq<Record>)
    requires Distinct(records)
    ensures Distinct(records + [r]) <==> r !in records
    ensures Distinct(records + [r] + more) ==> Distinct(records + [r])
  {
    var all := records + [r];
    if r in records {
      var i :| 0 <= i < |records| && records[i] == r;
      assert all[i] == all[|records|];
    }
    if Distinct(all + more) {
      forall i, j | 0 <= i < j < |all|
        ensures all[i] != all[j]
      {
        assert (all + more)[i] == all[i] && (all + more)[j] == all[j];
      }
    }
  }

  /** A scrape is accepted exactly if no line is rejected, the samples are at most 512, and no record
      occurs twice; then every record is kept. */
  lemma {:induction false} CollectIsExact(parse: Parser, lines: seq<string>, records: seq<Record>)
    requires Distinct(records) && |records| <= MAX_SAMPLES
    ensures var all := records + RecordsOf(parse, lines);
            Collect(parse, lines, records)
            == if NoneRejected(parse, lines) && |all| <= MAX_SAMPLES && Distinct(all) then Ok(all) else Err(Upstream)
    decreases |lines|
  {
    if lines == [] {
      assert records + [] == records;
    } else {
      var rest := RecordsOf(parse, lines[1..]);
      assert lines == [lines[0]] + lines[1..];
      assert NoneRejected(parse, lines) <==> !parse(lines[0]).Rejected? && NoneRejected(parse, lines[1..]);
      match parse(lines[0])
      case Rejected =>
      case Irrelevant =>
        assert RecordsOf(parse, lines) == rest;
        CollectIsExact(parse, lines[1..], records);
      case Accepted(r) =>
        assert records + ([r] + rest) == records + [r] + rest;
        DistinctGrows(records, r, rest);
        if |records| < MAX_SAMPLES && r !in records {
          CollectIsExact(parse, lines[1..], records + [r]);
        }
    }
  }

  // ---- the order of the lines does not matter ----

  lemma RecordsOfFirst(parse: Parser, a: seq<string>, b: seq<string>)
    requires a != []
    ensures RecordsOf(parse, a + b) == RecordIn(parse(a[0])) + RecordsOf(parse, a[1..] + b)
  {
    assert (a + b)[1..] == a[1..] + b;
  }

  lemma {:induction false} RecordsOfAll(parse: Parser, a: seq<string>, b: seq<string>)
    ensures multiset(RecordsOf(parse, a + b)) == multiset(RecordsOf(parse, a)) + multiset(RecordsOf(parse, b))
  {
    if a == [] {
      assert a + b == b;
    } else {
      RecordsOfAll(parse, a[1..], b);
      RecordsOfFirst(parse, a, b);
    }
  }

  lemma RecordsWithout(parse: Parser, lines: seq<string>, i: nat)
    requires i < |lines|
    ensures multiset(RecordsOf(parse, lines)) == multiset(RecordIn(parse(lines[i]))) + multiset(RecordsOf(parse, Without(lines, i)))
  {
    var tail := lines[i..];
    assert lines == lines[..i] + tail && tail[0] == lines[i] && tail[1..] == lines[i + 1..];
    RecordsOfAll(parse, lines[..i], tail);
    RecordsOfAll(parse, lines[..i], lines[i + 1..]);
  }

  lemma {:induction false} PermutedRecords(parse: Parser, a: seq<string>, b: seq<string>)
    requires multiset(a) == multiset(b)
    ensures multiset(RecordsOf(parse, a)) == multiset(RecordsOf(parse, b))
    decreases |a|
  {
    SameMembers(a, b);
    if a != [] {
      assert a[0] in b;
      var i :| 0 <= i < |b| && b[i] == a[0];
      SameWithout(a, 0, b, i);
      PermutedRecords(parse, Without(a, 0), Without(b, i));
      RecordsWithout(parse, b, i);
      RecordsWithout(parse, a, 0);
    }
  }

  lemma {:induction false} DistinctIsCounted(s: seq<Record>)
    ensures Distinct(s) <==> forall r :: multiset(s)[r] <= 1
  {
    if s != [] {
      var init, last := s[..|s| - 1], s[|s| - 1];
      assert s == init + [last];
      DistinctIsCounted(init);
      if Distinct(s) {
        assert last !in init;
        assert Distinct(init);
      } else if Distinct(init) {
        var i, j :| 0 <= i < j < |s| && s[i] == s[j];
        assert j == |s| - 1 && init[i] == last;
        assert multiset(s)[last] >= 2;
      } else {
        var r :| multiset(init)[r] > 1;
        assert multiset(s)[r] > 1;
      }
    }
  }

  lemma PermutedCollect(parse: Parser, a: seq<string>, b: seq<string>)
    requires multiset(a) == multiset(b)
    ensures var x, y := Collect(parse, a, []), Collect(parse, b, []);
            (x.Err? ==> y == x) && (x.Ok? ==> y.Ok? && multiset(x.value) == multiset(y.value) && Distinct(x.value))
  {
    var p, q := RecordsOf(parse, a), RecordsOf(parse, b);
    CollectIsExact(parse, a, []);
    CollectIsExact(parse, b, []);
    assert [] + p == p && [] + q == q;
    PermutedRecords(parse, a, b);
    SameMembers(a, b);
    SameMembers(b, a);
    SameMembers(p, q);
    DistinctIsCounted(p);
    DistinctIsCounted(q);
  }

  // ---- the order of the result ----

  function ReleaseOf(r: Record): Release { if ParseRelease(r.removedRelease).Some? then ParseRelease(r.removedRelease).value else Release(0, 0) }

  function Fields(r: Record): seq<string> { [r.group, r.version, r.resource, r.subresource] }

  predicate Before(a: Record, b: Record) {
    var x, y := ReleaseOf(a), ReleaseOf(b);
    if x.major != y.major then x.major < y.major
    else if x.minor != y.minor then x.minor < y.minor
    else FieldOrder.Less(Fields(a), Fields(b))
  }

  lemma BeforeIsStrictOrder(records: seq<Record>)
    ensures StrictOrder(Before, records)
  {
    forall x | x in records
      ensures !Before(x, x)
    {
      FieldOrder.Irreflexive(Fields(x));
    }
    forall x, y, z | x in records && y in records && z in records && Before(x, y) && Before(y, z)
      ensures Before(x, z)
    {
      BeforeIsTransitive(x, y, z);
    }
    forall x, y, z | x in records && y in records && z in records && !Before(x, y) && !Before(y, z)
      ensures !Before(x, z)
    {
      NotBeforeIsTransitive(x, y, z);
    }
  }

  lemma BeforeIsTransitive(x: Record, y: Record, z: Record)
    requires Before(x, y) && Before(y, z)
    ensures Before(x, z)
  {
    if ReleaseOf(x) == ReleaseOf(y) == ReleaseOf(z) {
      FieldOrder.Transitive(Fields(x), Fields(y), Fields(z));
    }
  }

  lemma NotBeforeIsTransitive(x: Record, y: Record, z: Record)
    requires !Before(x, y) && !Before(y, z)
    ensures !Before(x, z)
  {
    if ReleaseOf(x) == ReleaseOf(y) == ReleaseOf(z) {
      FieldOrder.NotLessIsTransitive(Fields(x), Fields(y), Fields(z));
    }
  }

  lemma SameFields(a: Record, b: Record)
    ensures Fields(a) == Fields(b) && a.removedRelease == b.removedRelease ==> a == b
  {
    var x, y := Fields(a), Fields(b);
    assert x[0] == a.group && x[1] == a.version && x[2] == a.resource && x[3] == a.subresource;
    assert y[0] == b.group && y[1] == b.version && y[2] == b.resource && y[3] == b.subresource;
  }

  /** The comparator never ties: a release determines its text, and the other fields are compared. */
  lemma BeforeIsTotal(a: Record, b: Record)
    requires ValidRecord(a) && ValidRecord(b) && a != b
    ensures Before(a, b) || Before(b, a)
  {
    if ReleaseOf(a) == ReleaseOf(b) {
      ReleaseIsPrinted(a.removedRelease);
      ReleaseIsPrinted(b.removedRelease);
      SameFields(a, b);
      FieldOrder.Trichotomy(Fields(a), Fields(b));
    }
  }

  ghost predicate AcceptsValid(parse: Parser) { forall line :: parse(line).Accepted? ==> ValidRecord(parse(line).record) }

  lemma {:induction false} RecordsAreValid(parse: Parser, lines: seq<string>)
    requires AcceptsValid(parse)
    ensures forall r :: r in RecordsOf(parse, lines) ==> ValidRecord(r)
  {
    if lines != [] { RecordsAreValid(parse, lines[1..]); }
  }

  lemma ParserAcceptsValid(metric: string, k: Names)
    ensures AcceptsValid(ParserOf(metric, k))
  {
  }

  function Requests(parse: Parser, lines: seq<string>): Result<seq<Record>> {
    match Collect(parse, lines, [])
    case Err(e) => Err(e)
    case Ok(records) => Ok(Sort(Before, records))
  }

  /** Any way of sorting the records gives the same list. */
  lemma SortingIsUnique(parse: Parser, lines: seq<string>, sorted: seq<Record>)
    requires AcceptsValid(parse) && Collect(parse, lines, []).Ok?
    requires multiset(sorted) == multiset(Collect(parse, lines, []).value) && Sorted(Before, sorted)
    ensures Requests(parse, lines) == Ok(sorted)
  {
    var records := Collect(parse, lines, []).value;
    CollectIsExact(parse, lines, []);
    assert [] + RecordsOf(parse, lines) == RecordsOf(parse, lines);
    RecordsAreValid(parse, lines);
    SameMembers(sorted, records);
    forall x, y | x in sorted && y in sorted && x != y
      ensures Before(x, y) || Before(y, x)
    {
      BeforeIsTotal(x, y);
    }
    BeforeIsStrictOrder(records);
    SortSorts(Before, records);
    SortIsPermutation(Before, records);
    SortedIsUnique(Before, sorted, Sort(Before, records));
  }

  /** The result depends only on which lines there are, not on their order. */
  lemma OrderOfLinesIsIrrelevant(metric: string, k: Names, a: seq<string>, b: seq<string>)
    requires multiset(a) == multiset(b)
    ensures Requests(ParserOf(metric, k), a) == Requests(ParserOf(metric, k), b)
  {
    var parse := ParserOf(metric, k);
    ParserAcceptsValid(metric, k);
    PermutedCollect(parse, a, b);
    if Collect(parse, a, []).Ok? {
      var records := Collect(parse, b, []).value;
      BeforeIsStrictOrder(records);
      SortSorts(Before, records);
      SortIsPermutation(Before, records);
      SortingIsUnique(parse, a, Sort(Before, records));
    }
  }

  // ---- the loops ----

  ghost predicate Implements(parse: Parser, metric: string, k: Names) {
    forall line {:trigger ParserOf(metric, k)(line)} :: parse(line) == ParserOf(metric, k)(line)
  }

  method ParseScannedLine(metric: string, k: Names, ghost parse: Parser, text: string) returns (r: Line)
    requires Implements(parse, metric, k)
    ensures r == parse(text)
  {
    ghost var expected := ParserOf(metric, k)(text);
    var line := text;
    if |line| > MAX_LINE_BYTES {
      return Rejected;
    }
    if line != "" && line[|line| - 1] == '\r' {
      line := line[..|line| - 1];
    }
    r := ParseDeprecatedApiMetricLine(metric, k, line);
  }

  method CollectLines(metric: string, k: Names, ghost parse: Parser, lines: seq<string>) returns (r: Result<seq<Record>>)
    requires Implements(parse, metric, k)
    ensures r == Collect(parse, lines, [])
  {
    var records: seq<Record> := [];
    var seen: set<Record> := {};
    assert lines[0..] == lines;
    for i := 0 to |lines|
      invariant seen == (set x | x in records) && Collect(parse, lines, []) == Collect(parse, lines[i..], records)
    {
      assert lines[i..][1..] == lines[i + 1..];
      var parsed := ParseScannedLine(metric, k, parse, lines[i]);
      match parsed {
        case Rejected => return Err(Upstream);
        case Irrelevant =>
        case Accepted(record) =>
          if |records| >= MAX_SAMPLES || record in seen {
            return Err(Upstream);
          }
          seen := seen + {record};
          records := records + [record];
      }
    }
    r := Ok(records);
  }

  method ParseDeprecatedApiMetrics(metric: string, k: Names, lines: seq<string>) returns (r: Result<seq<Record>>)
    ensures r == Collect(ParserOf(metric, k), lines, [])
  {
    r := CollectLines(metric, k, ParserOf(metric, k), lines);
  }

  method DeprecatedApiRequests(lines: seq<string>) returns (r: Result<seq<Record>>)
    ensures r == Requests(ParserOf(METRIC, NAMES), lines)
  {
    r := ParseDeprecatedApiMetrics(METRIC, NAMES, lines);
    if r.Ok? {
      r := Ok(Sort(Before, r.value));
    }
  }
}
