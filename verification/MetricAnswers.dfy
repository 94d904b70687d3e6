/** What the metric parser answers: which lines it ignores, accepts and rejects, and the list that a whole
    scrape gives, in terms of the text. */
module MetricAnswers {
  import opened Common
  import opened Decimal
  import StringOrder
  import FieldOrder
  import opened Sorting
  import opened PrometheusText
  import opened ApiNames
  import opened ApiRecords
  import opened MetricNumber
  import opened MetricLines
  import opened DeprecatedApi

  // ---- one line ----

  /** The name stands in `line` behind nothing but spaces and tabs. */
  predicate NameIsAt(name: string, line: string, k: int) {
    0 <= k <= |line| && name <= line[k..] && forall i :: 0 <= i < k ==> line[i] == ' ' || line[i] == '\t'
  }

  /** A comment, or a sample of a metric with another name. */
  ghost predicate OfOtherMetric(name: string, line: string) {
    || (forall k :: !NameIsAt(name, line, k))
    || (name <= line && |line| > |name|
        && var c := line[|name|]; 'a' <= c <= 'z' || 'A' <= c <= 'Z' || '0' <= c <= '9' || c == '_' || c == ':')
  }

  /** `line` prints the record, with its labels and spaces laid out so. */
  ghost predicate Prints(metric: string, k: Names, line: string, r: Record, ps: seq<Printed>, gap: string, number: string, tail: string) {
    && ValidRecord(r) && Lays(k, r, ps) && ps != [] && gap != "" && AllSpaces(gap) && AllSpaces(tail) && ValidMetricValue(number)
    && line == PrintLine(metric, ps, gap, number, tail)
  }

  ghost predicate IsPrint(metric: string, k: Names, line: string, r: Record) {
    exists ps, gap, number, tail :: Prints(metric, k, line, r, ps, gap, number, tail)
  }

  lemma {:induction false} SkipFindsName(name: string, line: string)
    requires name != "" && name[0] != ' ' && name[0] != '\t'
    ensures name <= Skip(line) <==> exists k :: NameIsAt(name, line, k)
  {
    assert line[0..] == line;
    if line == "" || !IsSpace(line[0]) {
      assert name <= line ==> NameIsAt(name, line, 0);
    } else {
      var rest := line[1..];
      SkipFindsName(name, rest);
      forall k | NameIsAt(name, rest, k)
        ensures NameIsAt(name, line, k + 1)
      {
        assert line[k + 1..] == rest[k..];
      }
      forall k | NameIsAt(name, line, k)
        ensures k > 0 && NameIsAt(name, rest, k - 1)
      {
        assert k > 0 ==> line[k..] == rest[k - 1..];
      }
    }
  }

  /** The lines that are ignored, and no others. */
  lemma OtherMetricsAreIgnored(metric: string, k: Names, line: string)
    requires metric != "" && metric[0] != ' ' && metric[0] != '\t'
    ensures ParseLine(metric, k, line) == Irrelevant <==> OfOtherMetric(metric, line)
  {
    SkipFindsName(metric, line);
    if metric <= line {
      assert line[0..] == line && NameIsAt(metric, line, 0);
    }
  }

  lemma PrintsAreAccepted(metric: string, k: Names, line: string, r: Record)
    requires GoodNames(k)
    ensures ParseLine(metric, k, line) == Accepted(r) <==> IsPrint(metric, k, line, r)
  {
    if ParseLine(metric, k, line) == Accepted(r) {
      var ps, gap, number, tail := AcceptedLineIsPrinted(metric, k, line, r);
      assert Prints(metric, k, line, r, ps, gap, number, tail);
    }
    if IsPrint(metric, k, line, r) {
      var ps, gap, number, tail :| Prints(metric, k, line, r, ps, gap, number, tail);
      LineRoundTrip(metric, k, r, ps, gap, number, tail);
    }
  }

  /** Every line is ignored, accepted or rejected: ignored if it belongs to another metric, accepted as a
      valid record if it prints that, and rejected otherwise. */
  lemma LinesAreExact(metric: string, k: Names, line: string)
    requires GoodNames(k) && metric != "" && metric[0] != ' ' && metric[0] != '\t'
    ensures ParseLine(metric, k, line) == Irrelevant <==> OfOtherMetric(metric, line)
    ensures forall r :: ParseLine(metric, k, line) == Accepted(r) <==> IsPrint(metric, k, line, r)
    ensures ParseLine(metric, k, line) == Rejected <==> !OfOtherMetric(metric, line) && forall r :: !IsPrint(metric, k, line, r)
  {
    OtherMetricsAreIgnored(metric, k, line);
    forall r { PrintsAreAccepted(metric, k, line, r); }
    var l := ParseLine(metric, k, line);
    if l.Accepted? { assert IsPrint(metric, k, line, l.record); }
  }

  // ---- the lines of a scrape ----

  /** A line without the carriage return of its end. */
  function Chomped(line: string): string {
    if line != "" && line[|line| - 1] == '\r' then line[..|line| - 1] else line
  }

  const PARSER: Parser := ParserOf(METRIC, NAMES)

  ghost predicate IsIgnored(line: string) { |line| <= 65536 && OfOtherMetric("apiserver_requested_deprecated_apis", Chomped(line)) }

  ghost predicate IsSample(line: string, r: Record) {
    && |line| <= 65536
    && IsPrint("apiserver_requested_deprecated_apis", Names("group", "version", "resource", "subresource", "removed_release"), Chomped(line), r)
  }

  lemma ScrapedLine(line: string)
    ensures PARSER(line) == Irrelevant <==> IsIgnored(line)
    ensures forall r :: PARSER(line) == Accepted(r) <==> IsSample(line, r)
    ensures PARSER(line) == Rejected <==> !IsIgnored(line) && forall r :: !IsSample(line, r)
  {
    NamesAreGood();
    LinesAreExact(METRIC, NAMES, Chomped(line));
    if |line| <= 65536 {
      assert PARSER(line) == ParseLine(METRIC, NAMES, Chomped(line));
    }
  }

  // ---- all lines, for any parser ----

  type Sample = (string, Record) -> bool

  /** `ignored` and `sample` say what the parser does with each line. */
  ghost predicate Classifies(parse: Parser, ignored: string -> bool, sample: Sample) {
    forall line :: (parse(line).Irrelevant? <==> ignored(line)) && forall r :: parse(line) == Accepted(r) <==> sample(line, r)
  }

  /** No two lines hold the same record. */
  ghost predicate NoneTwice(sample: Sample, lines: seq<string>) {
    forall i, j, r :: 0 <= i < j < |lines| && sample(lines[i], r) ==> !sample(lines[j], r)
  }

  ghost predicate Holds(sample: Sample, line: string) { exists r :: sample(line, r) }

  /** The places of the lines that hold a record. */
  ghost function SamplesAt(sample: Sample, lines: seq<string>): set<int> { Places(line => Holds(sample, line), lines) }

  lemma {:induction false} RecordsAppend(parse: Parser, lines: seq<string>, line: string)
    ensures RecordsOf(parse, lines + [line]) == RecordsOf(parse, lines) + RecordIn(parse(line))
    decreases |lines|
  {
    if lines == [] {
      assert [] + [line] == [line] && [line][1..] == [];
      assert RecordIn(parse(line)) + [] == RecordIn(parse(line)) == [] + RecordIn(parse(line));
    } else {
      RecordsAppend(parse, lines[1..], line);
      RecordsOfFirst(parse, lines, [line]);
      var first, rest, last := RecordIn(parse(lines[0])), RecordsOf(parse, lines[1..]), RecordIn(parse(line));
      assert first + (rest + last) == (first + rest) + last;
    }
  }

  lemma {:induction false} RecordsAreSamples(parse: Parser, ignored: string -> bool, sample: Sample, lines: seq<string>, r: Record)
    requires Classifies(parse, ignored, sample)
    ensures r in RecordsOf(parse, lines) <==> exists i :: 0 <= i < |lines| && sample(lines[i], r)
  {
    if lines != [] {
      var rest := lines[1..];
      RecordsAreSamples(parse, ignored, sample, rest, r);
      assert r in RecordIn(parse(lines[0])) <==> sample(lines[0], r);
      if i :| 0 <= i < |rest| && sample(rest[i], r) {
        assert sample(lines[i + 1], r);
      }
      assert forall i :: 0 < i < |lines| ==> lines[i] == rest[i - 1];
    }
  }

  lemma HoldsIfAccepted(parse: Parser, ignored: string -> bool, sample: Sample, line: string)
    requires Classifies(parse, ignored, sample)
    ensures parse(line).Accepted? <==> Holds(sample, line)
    ensures parse(line).Rejected? <==> !ignored(line) && !Holds(sample, line)
  {
    if parse(line).Accepted? {
      assert sample(line, parse(line).record);
    }
  }

  lemma {:induction false} SamplesAreCounted(parse: Parser, ignored: string -> bool, sample: Sample, lines: seq<string>)
    requires Classifies(parse, ignored, sample)
    ensures |RecordsOf(parse, lines)| == |SamplesAt(sample, lines)|
  {
    if lines == [] {
      assert SamplesAt(sample, lines) == {};
    } else {
      var init, last := lines[..|lines| - 1], lines[|lines| - 1];
      assert lines == init + [last];
      SamplesAreCounted(parse, ignored, sample, init);
      RecordsAppend(parse, init, last);
      PlacesGrow(line => Holds(sample, line), init, last);
      HoldsIfAccepted(parse, ignored, sample, last);
    }
  }

  lemma NoneTwiceGrows(sample: Sample, lines: seq<string>, line: string)
    ensures NoneTwice(sample, lines + [line])
            <==> NoneTwice(sample, lines) && forall i, r :: 0 <= i < |lines| && sample(lines[i], r) ==> !sample(line, r)
  {
    var all := lines + [line];
    assert all[|lines|] == line && forall i :: 0 <= i < |lines| ==> all[i] == lines[i];
    if NoneTwice(sample, all) {
      forall i, j, r | 0 <= i < j < |lines| && sample(lines[i], r)
        ensures !sample(lines[j], r)
      {
        assert sample(all[i], r);
      }
      forall i, r | 0 <= i < |lines| && sample(lines[i], r)
        ensures !sample(line, r)
      {
        assert sample(all[i], r);
      }
    }
  }

  lemma DistinctWithLast(records: seq<Record>, r: Record)
    ensures Distinct(records + [r]) <==> Distinct(records) && r !in records
  {
    if Distinct(records) {
      DistinctGrows(records, r, []);
    } else if Distinct(records + [r]) {
      forall i, j | 0 <= i < j < |records|
        ensures records[i] != records[j]
      {
        assert (records + [r])[i] == records[i] && (records + [r])[j] == records[j];
      }
    }
  }

  lemma {:induction false} DistinctSamples(parse: Parser, ignored: string -> bool, sample: Sample, lines: seq<string>)
    requires Classifies(parse, ignored, sample)
    ensures Distinct(RecordsOf(parse, lines)) <==> NoneTwice(sample, lines)
  {
    if lines != [] {
      var init, last := lines[..|lines| - 1], lines[|lines| - 1];
      var records := RecordsOf(parse, init);
      assert lines == init + [last];
      DistinctSamples(parse, ignored, sample, init);
      RecordsAppend(parse, init, last);
      NoneTwiceGrows(sample, init, last);
      LastIsNew(parse, ignored, sample, init, last);
      if parse(last).Accepted? {
        DistinctWithLast(records, parse(last).record);
      } else {
        assert records + [] == records;
      }
    }
  }

  lemma LastIsNew(parse: Parser, ignored: string -> bool, sample: Sample, lines: seq<string>, line: string)
    requires Classifies(parse, ignored, sample)
    ensures (forall i, r :: 0 <= i < |lines| && sample(lines[i], r) ==> !sample(line, r))
            <==> (parse(line).Accepted? ==> parse(line).record !in RecordsOf(parse, lines))
  {
    if parse(line).Accepted? {
      var r := parse(line).record;
      RecordsAreSamples(parse, ignored, sample, lines, r);
      assert sample(line, r);
    }
  }

  /** What a scrape gives, by what its lines are. */
  ghost predicate Collects(ignored: string -> bool, sample: Sample, lines: seq<string>, r: Result<seq<Record>>) {
    && (r.Ok? <==> (forall line :: line in lines ==> ignored(line) || Holds(sample, line))
                   && |SamplesAt(sample, lines)| <= 512 && NoneTwice(sample, lines))
    && (r.Err? ==> r == Err(Upstream))
    && (r.Ok? ==> |r.value| == |SamplesAt(sample, lines)|
                  && forall x :: x in r.value <==> exists i :: 0 <= i < |lines| && sample(lines[i], x))
  }

  lemma CollectsSamples(parse: Parser, ignored: string -> bool, sample: Sample, lines: seq<string>)
    requires Classifies(parse, ignored, sample)
    ensures Collects(ignored, sample, lines, Requests(parse, lines))
  {
    var records := RecordsOf(parse, lines);
    var sorted := Sort(Before, records);
    CollectIsExact(parse, lines, []);
    assert [] + records == records;
    SamplesAreCounted(parse, ignored, sample, lines);
    DistinctSamples(parse, ignored, sample, lines);
    forall line { HoldsIfAccepted(parse, ignored, sample, line); }
    SortIsPermutation(Before, records);
    SameMembers(sorted, records);
    SameMembers(records, sorted);
    forall x
      ensures x in sorted <==> exists i :: 0 <= i < |lines| && sample(lines[i], x)
    {
      RecordsAreSamples(parse, ignored, sample, lines, x);
    }
  }

  /** The lines that are not ignored, in order. */
  ghost function OwnLines(ignored: string -> bool, lines: seq<string>): seq<string> {
    if lines == [] then [] else (if ignored(lines[0]) then [] else [lines[0]]) + OwnLines(ignored, lines[1..])
  }

  lemma {:induction false} OwnLinesDecide(parse: Parser, ignored: string -> bool, lines: seq<string>, records: seq<Record>)
    requires forall line :: parse(line).Irrelevant? <==> ignored(line)
    ensures Collect(parse, lines, records) == Collect(parse, OwnLines(ignored, lines), records)
    decreases |lines|
  {
    if lines != [] {
      var rest := OwnLines(ignored, lines[1..]);
      assert ([lines[0]] + rest)[1..] == rest && [] + rest == rest;
      match parse(lines[0])
      case Rejected =>
      case Irrelevant => OwnLinesDecide(parse, ignored, lines[1..], records);
      case Accepted(r) => OwnLinesDecide(parse, ignored, lines[1..], records + [r]);
    }
  }

  // ---- a scrape ----

  lemma ParserClassifies()
    ensures Classifies(PARSER, IsIgnored, IsSample)
  {
    forall line
      ensures (PARSER(line).Irrelevant? <==> IsIgnored(line)) && forall r :: PARSER(line) == Accepted(r) <==> IsSample(line, r)
    {
      ScrapedLine(line);
    }
  }

  /** A scrape succeeds exactly if every line is ignored or holds a record, at most 512 do, and no two
      hold the same; the list then holds exactly these records. */
  lemma ScrapeIsExact(lines: seq<string>)
    ensures Collects(IsIgnored, IsSample, lines, Requests(PARSER, lines))
  {
    ParserClassifies();
    CollectsSamples(PARSER, IsIgnored, IsSample, lines);
  }

  /** Inserting or removing lines of other metrics, anywhere, changes neither success nor the list. */
  lemma OtherMetricsDoNotMatter(a: seq<string>, b: seq<string>)
    requires OwnLines(IsIgnored, a) == OwnLines(IsIgnored, b)
    ensures Requests(PARSER, a) == Requests(PARSER, b)
  {
    ParserClassifies();
    OwnLinesDecide(PARSER, IsIgnored, a, []);
    OwnLinesDecide(PARSER, IsIgnored, b, []);
  }

  // ---- the order of the list ----

  /** First by release, as numbers, then by group, version, resource and subresource, as bytes. */
  predicate Ascends(a: Record, x: Release, b: Record, y: Release) {
    if x.major != y.major then x.major < y.major
    else if x.minor != y.minor then x.minor < y.minor
    else if a.group != b.group then StringOrder.Less(a.group, b.group)
    else if a.version != b.version then StringOrder.Less(a.version, b.version)
    else if a.resource != b.resource then StringOrder.Less(a.resource, b.resource)
    else StringOrder.Less(a.subresource, b.subresource)
  }

  lemma FieldsAscend(a: Record, b: Record)
    requires FieldOrder.Less(Fields(a), Fields(b))
    ensures Ascends(a, Release(0, 0), b, Release(0, 0))
  {
    assert Fields(a) == [a.group] + [a.version, a.resource, a.subresource];
    assert Fields(b) == [b.group] + [b.version, b.resource, b.subresource];
    FieldOrder.FromField(a.group, [a.version, a.resource, a.subresource], b.group, [b.version, b.resource, b.subresource]);
    if a.group == b.group {
      assert [a.version, a.resource, a.subresource] == [a.version] + [a.resource, a.subresource];
      assert [b.version, b.resource, b.subresource] == [b.version] + [b.resource, b.subresource];
      FieldOrder.FromField(a.version, [a.resource, a.subresource], b.version, [b.resource, b.subresource]);
      if a.version == b.version {
        assert [a.resource, a.subresource] == [a.resource] + [a.subresource] && [b.resource, b.subresource] == [b.resource] + [b.subresource];
        FieldOrder.FromField(a.resource, [a.subresource], b.resource, [b.subresource]);
        if a.resource == b.resource {
          assert [a.subresource] == [a.subresource] + [] && [b.subresource] == [b.subresource] + [];
          FieldOrder.FromField(a.subresource, [], b.subresource, []);
        }
      }
    }
  }

  lemma ReleaseIsRead(r: Record, x: Release)
    requires IsRelease(r.removedRelease, x)
    ensures ReleaseOf(r) == x
  {
    PrintedIsRelease(x);
  }

  lemma BeforeAscends(a: Record, x: Release, b: Record, y: Release)
    requires Before(a, b) && IsRelease(a.removedRelease, x) && IsRelease(b.removedRelease, y)
    ensures Ascends(a, x, b, y)
  {
    ReleaseIsRead(a, x);
    ReleaseIsRead(b, y);
    if x == y {
      FieldsAscend(a, b);
    }
  }

  /** The list ascends strictly. */
  lemma ListAscends(lines: seq<string>, i: nat, j: nat) returns (x: Release, y: Release)
    requires var r := Requests(PARSER, lines); r.Ok? && i < j < |r.value|
    ensures var list := Requests(PARSER, lines).value;
            && IsRelease(list[i].removedRelease, x) && IsRelease(list[j].removedRelease, y)
            && Ascends(list[i], x, list[j], y)
  {
    var records := RecordsOf(PARSER, lines);
    var list := Sort(Before, records);
    CollectIsExact(PARSER, lines, []);
    assert [] + records == records;
    ParserAcceptsValid(METRIC, NAMES);
    RecordsAreValid(PARSER, lines);
    BeforeIsStrictOrder(records);
    SortSorts(Before, records);
    SortIsPermutation(Before, records);
    SameMembers(list, records);
    assert list[i] in records && list[j] in records;
    ReleaseIsPrinted(list[i].removedRelease);
    ReleaseIsPrinted(list[j].removedRelease);
    x, y := ReleaseOf(list[i]), ReleaseOf(list[j]);
    DistinctIsCounted(records);
    DistinctIsCounted(list);
    BeforeIsTotal(list[i], list[j]);
    BeforeAscends(list[i], x, list[j], y);
  }
}
