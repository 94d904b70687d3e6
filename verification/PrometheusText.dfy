/** Scanning and printing label sets of the Prometheus text format, version 0.0.4, as
    internal/kubernetes/deprecated_api.go does it. Strings are byte strings. */
module PrometheusText {
  import opened Common

  const MAX_LABEL_BYTES := 253

  predicate IsSpace(c: char) { c == ' ' || c == '\t' }

  predicate IsLabelNameCharacter(c: char, first: bool) {
    'a' <= c <= 'z' || 'A' <= c <= 'Z' || c == '_' || (!first && '0' <= c <= '9')
  }

  // ---- scanning, as functions of what is left of the line ----

  /** A value and the text behind it. */
  datatype Scanned<T> = Scanned(value: T, rest: string)

  function Skip(t: string): (rest: string)
    ensures |rest| <= |t|
  {
    if t != "" && IsSpace(t[0]) then Skip(t[1..]) else t
  }

  function Name(t: string, name: string): (r: Scanned<string>)
    ensures |r.value| + |r.rest| == |name| + |t|
    decreases |t|
  {
    if t != "" && IsLabelNameCharacter(t[0], name == "") then Name(t[1..], name + [t[0]]) else Scanned(name, t)
  }

  function Unescape(c: char): Option<char> {
    if c == '\\' || c == '"' then Some(c) else if c == 'n' then Some('\n') else None
  }

  /** The rest of a quoted value, from inside the quotes. */
  function Unquote(t: string, value: string): (r: Result<Scanned<string>>)
    ensures r.Ok? ==> |r.value.rest| < |t|
    ensures r.Ok? && |value| <= MAX_LABEL_BYTES ==> |r.value.value| <= MAX_LABEL_BYTES
    decreases |t|
  {
    if t == "" then Err(Upstream)
    else if t[0] == '"' then Ok(Scanned(value, t[1..]))
    else if t[0] == '\\' && (|t| == 1 || Unescape(t[1]).None?) then Err(Upstream)
    else if |value| >= MAX_LABEL_BYTES then Err(Upstream)
    else if t[0] == '\\' then Unquote(t[2..], value + [Unescape(t[1]).value])
    else Unquote(t[1..], value + [t[0]])
  }

  function LabelValue(t: string): (r: Result<Scanned<string>>)
    ensures r.Ok? ==> |r.value.rest| < |t| && |r.value.value| <= MAX_LABEL_BYTES
  {
    if t == "" || t[0] != '"' then Err(Upstream) else Unquote(t[1..], "")
  }

  datatype Label = Label(name: string, value: string)

  /** Which label names a metric may carry. */
  type Known = string -> bool

  /** A label, from its name up to the separator behind it. */
  function LabelAt(known: Known, t: string): (r: Result<Scanned<Label>>)
    ensures r.Ok? ==> 0 < |r.value.rest| < |t|
  {
    var name := Name(t, "");
    var equals := Skip(name.rest);
    if name.value == "" || equals == "" || equals[0] != '=' || !known(name.value) then Err(Upstream)
    else match LabelValue(Skip(equals[1..]))
      case Err(e) => Err(e)
      case Ok(v) =>
        var rest := Skip(v.rest);
        if rest == "" then Err(Upstream) else Ok(Scanned(Label(name.value, v.value), rest))
  }

  type Scanner = string -> Result<Scanned<Label>>

  ghost predicate Advances(at: Scanner) { forall t :: at(t).Ok? ==> 0 < |at(t).value.rest| < |t| }

  /** Labels up to the closing brace; no space in front. */
  function Labels(at: Scanner, t: string, labels: map<string, string>): (r: Result<Scanned<map<string, string>>>)
    requires Advances(at)
    ensures r.Ok? ==> |r.value.rest| < |t|
    decreases |t|
  {
    match at(t)
    case Err(e) => Err(e)
    case Ok(l) =>
      var more := labels[l.value.name := l.value.value];
      if l.value.name in labels then Err(Upstream)
      else if l.rest[0] == '}' then Ok(Scanned(more, l.rest[1..]))
      else if l.rest[0] == ',' then Labels(at, Skip(l.rest[1..]), more)
      else Err(Upstream)
  }

  function LabelScanner(known: Known): (at: Scanner)
    ensures Advances(at)
  {
    t => LabelAt(known, t)
  }

  function LabelSet(known: Known, t: string): Result<Scanned<map<string, string>>> {
    if t == "" || t[0] != '{' then Err(Upstream) else Labels(LabelScanner(known), Skip(t[1..]), map[])
  }

  // ---- the scanning loops ----

  /** What a loop finds, with the position behind it. */
  datatype Found<T> = Found(value: T, next: nat)

  /** A loop over `line` finds what the function scans. */
  predicate Agrees<T(==)>(line: string, found: Result<Found<T>>, scanned: Result<Scanned<T>>) {
    match found
    case Err(e) => scanned == Err(e)
    case Ok(f) => f.next <= |line| && scanned == Ok(Scanned(f.value, line[f.next..]))
  }

  method SkipPrometheusSpaces(value: string, position: nat) returns (next: nat)
    requires position <= |value|
    ensures position <= next <= |value| && value[next..] == Skip(value[position..])
  {
    next := position;
    while next < |value| && IsSpace(value[next])
      invariant position <= next <= |value| && Skip(value[next..]) == Skip(value[position..])
    {
      assert value[next..][1..] == value[next + 1..];
      next := next + 1;
    }
  }

  method ParsePrometheusLabelValue(line: string, position: nat) returns (r: Result<Found<string>>)
    requires position <= |line|
    ensures Agrees(line, r, LabelValue(line[position..]))
  {
    if position >= |line| || line[position] != '"' {
      return Err(Upstream);
    }
    var p := position + 1;
    var value := "";
    assert line[position..][1..] == line[p..];
    while p < |line|
      invariant p <= |line| && LabelValue(line[position..]) == Unquote(line[p..], value)
    {
      var character := line[p];
      assert line[p..][1..] == line[p + 1..];
      p := p + 1;
      if character == '"' {
        return Ok(Found(value, p));
      }
      if character == '\\' {
        if p >= |line| {
          return Err(Upstream);
        }
        var escaped := line[p];
        assert line[p - 1..][2..] == line[p + 1..];
        p := p + 1;
        if escaped == '\\' || escaped == '"' {
          character := escaped;
        } else if escaped == 'n' {
          character := '\n';
        } else {
          return Err(Upstream);
        }
      }
      if |value| >= MAX_LABEL_BYTES {
        return Err(Upstream);
      }
      value := value + [character];
    }
    r := Err(Upstream);
  }

  method ParseName(line: string, start: nat) returns (next: nat)
    requires start <= |line|
    ensures start <= next <= |line| && Name(line[start..], "") == Scanned(line[start..next], line[next..])
  {
    next := start;
    assert line[start..start] == "";
    while next < |line| && IsLabelNameCharacter(line[next], next == start)
      invariant start <= next <= |line| && Name(line[start..], "") == Name(line[next..], line[start..next])
    {
      assert line[next..][1..] == line[next + 1..];
      assert line[start..next] + [line[next]] == line[start..next + 1];
      next := next + 1;
    }
  }

  ghost predicate Implements(at: Scanner, known: Known) {
    forall t {:trigger LabelAt(known, t)} :: at(t) == LabelAt(known, t)
  }

  method ParseLabel(known: Known, ghost at: Scanner, line: string, nameStart: nat) returns (r: Result<Found<Label>>)
    requires nameStart <= |line| && Implements(at, known)
    ensures Agrees(line, r, at(line[nameStart..]))
  {
    ghost var scanned := LabelAt(known, line[nameStart..]);
    var position := ParseName(line, nameStart);
    var name := line[nameStart..position];
    position := SkipPrometheusSpaces(line, position);
    if name == "" || position >= |line| || line[position] != '=' || !known(name) {
      return Err(Upstream);
    }
    assert line[position..][1..] == line[position + 1..];
    position := SkipPrometheusSpaces(line, position + 1);
    var value := ParsePrometheusLabelValue(line, position);
    if value.Err? {
      return Err(value.error);
    }
    position := SkipPrometheusSpaces(line, value.value.next);
    if position >= |line| {
      return Err(Upstream);
    }
    r := Ok(Found(Label(name, value.value.value), position));
  }

  /** The loop over the labels. */
  method ParseLabels(known: Known, ghost at: Scanner, line: string, start: nat) returns (r: Result<Found<map<string, string>>>)
    requires start <= |line| && Implements(at, known) && Advances(at)
    ensures Agrees(line, r, Labels(at, line[start..], map[]))
  {
    var labels: map<string, string> := map[];
    var position := start;
    while true
      invariant position <= |line| && Labels(at, line[start..], map[]) == Labels(at, line[position..], labels)
      decreases |line| - position
    {
      var parsed := ParseLabel(known, at, line, position);
      if parsed.Err? {
        return Err(parsed.error);
      }
      var l := parsed.value;
      assert line[l.next..][1..] == line[l.next + 1..];
      if l.value.name in labels {
        return Err(Upstream);
      }
      labels := labels[l.value.name := l.value.value];
      if line[l.next] == '}' {
        return Ok(Found(labels, l.next + 1));
      }
      if line[l.next] != ',' {
        return Err(Upstream);
      }
      position := SkipPrometheusSpaces(line, l.next + 1);
    }
  }

  method ParseLabelSet(known: Known, line: string, start: nat) returns (r: Result<Found<map<string, string>>>)
    requires start <= |line|
    ensures Agrees(line, r, LabelSet(known, line[start..]))
  {
    if start >= |line| || line[start] != '{' {
      return Err(Upstream);
    }
    assert line[start..][1..] == line[start + 1..];
    var position := SkipPrometheusSpaces(line, start + 1);
    r := ParseLabels(known, LabelScanner(known), line, position);
  }

  // ---- printing, in front of what follows ----

  function EscapeCharacter(c: char): string {
    if c == '\\' then "\\\\" else if c == '"' then "\\\"" else if c == '\n' then "\\n" else [c]
  }

  /** The escaped value, the closing quote, and what follows. */
  function Escape(value: string, rest: string): string {
    if value == "" then "\"" + rest else EscapeCharacter(value[0]) + Escape(value[1..], rest)
  }

  function Quote(value: string, rest: string): string { "\"" + Escape(value, rest) }

  predicate AllSpaces(s: string) { forall i :: 0 <= i < |s| ==> IsSpace(s[i]) }

  predicate IsName(name: string) { name != "" && forall i :: 0 <= i < |name| ==> IsLabelNameCharacter(name[i], i == 0) }

  /** A label and the spaces it is printed with: before the name, around `=`, after the value. */
  datatype Printed = Printed(item: Label, before: string, beforeEquals: string, afterEquals: string, after: string)

  predicate Printable(known: Known, p: Printed) {
    && known(p.item.name) && IsName(p.item.name) && |p.item.value| <= MAX_LABEL_BYTES
    && AllSpaces(p.before) && AllSpaces(p.beforeEquals) && AllSpaces(p.afterEquals) && AllSpaces(p.after)
  }

  function PrintLabel(p: Printed, rest: string): string {
    p.before + (p.item.name + (p.beforeEquals + ("=" + (p.afterEquals + Quote(p.item.value, p.after + rest)))))
  }

  /** Labels separated by commas, the closing brace, and what follows. */
  function Join(texts: seq<string -> string>, rest: string): string
    requires texts != []
  {
    texts[0](if |texts| == 1 then "}" + rest else "," + Join(texts[1..], rest))
  }

  function Printers(ps: seq<Printed>): seq<string -> string> { seq(|ps|, i requires 0 <= i < |ps| => (rest => PrintLabel(ps[i], rest))) }

  function PrintSet(ps: seq<Printed>, rest: string): string
    requires ps != []
  {
    "{" + Join(Printers(ps), rest)
  }

  // ---- round trips ----

  predicate StartsSpaced(t: string) { t != "" && IsSpace(t[0]) }

  lemma {:induction false} SkipsSpaces(spaces: string, rest: string)
    requires AllSpaces(spaces) && !StartsSpaced(rest)
    ensures Skip(spaces + rest) == rest
  {
    if spaces == "" {
      assert spaces + rest == rest;
    } else {
      SkipsSpaces(spaces[1..], rest);
      assert (spaces + rest)[1..] == spaces[1..] + rest;
    }
  }

  lemma {:induction false} ScansName(done: string, name: string, rest: string)
    requires forall i :: 0 <= i < |name| ==> IsLabelNameCharacter(name[i], done == "" && i == 0)
    requires rest != "" && !IsLabelNameCharacter(rest[0], false)
    ensures Name(name + rest, done) == Scanned(done + name, rest)
    decreases |name|
  {
    if name == "" {
      assert name + rest == rest && done + name == done;
    } else {
      ScansName(done + [name[0]], name[1..], rest);
      assert (name + rest)[1..] == name[1..] + rest && done + [name[0]] + name[1..] == done + name;
    }
  }

  lemma {:induction false} UnquotesEscaped(done: string, value: string, rest: string)
    requires |done| + |value| <= MAX_LABEL_BYTES
    ensures Unquote(Escape(value, rest), done) == Ok(Scanned(done + value, rest))
    decreases |value|
  {
    if value == "" {
      UnquoteEnds(done, rest);
      assert done + value == done;
    } else {
      UnquotesEscaped(done + [value[0]], value[1..], rest);
      UnquotesCharacter(done, value[0], Escape(value[1..], rest));
      FirstMoves(done, value);
    }
  }

  lemma FirstMoves(done: string, value: string)
    requires value != ""
    ensures done + [value[0]] + value[1..] == done + value
  {
  }

  lemma UnquoteEnds(done: string, rest: string)
    ensures Unquote("\"" + rest, done) == Ok(Scanned(done, rest))
  {
    assert ("\"" + rest)[1..] == rest;
  }

  lemma UnquotesCharacter(done: string, c: char, more: string)
    requires |done| < MAX_LABEL_BYTES
    ensures Unquote(EscapeCharacter(c) + more, done) == Unquote(more, done + [c])
  {
    var t := EscapeCharacter(c) + more;
    if |EscapeCharacter(c)| == 2 {
      assert t[2..] == more && t[0] == '\\' && t[1] == EscapeCharacter(c)[1];
    } else {
      assert t[1..] == more;
    }
  }

  /** Quoting any value of legal length and scanning it gives the value back. */
  lemma QuoteRoundTrip(value: string, rest: string)
    requires |value| <= MAX_LABEL_BYTES
    ensures LabelValue(Quote(value, rest)) == Ok(Scanned(value, rest))
  {
    UnquotesEscaped("", value, rest);
    assert Quote(value, rest)[1..] == Escape(value, rest) && "" + value == value;
  }

  /** So every value the scanner accepts quotes and scans to itself. */
  lemma AcceptedValueRoundTrip(t: string, rest: string)
    requires LabelValue(t).Ok?
    ensures LabelValue(Quote(LabelValue(t).value.value, rest)) == Ok(Scanned(LabelValue(t).value.value, rest))
  {
    QuoteRoundTrip(LabelValue(t).value.value, rest);
  }

  /** The scans of the parts make a label. */
  lemma AssembleLabel(known: Known, t: string, name: Scanned<string>, equals: string, value: Scanned<string>, rest: string)
    requires Name(t, "") == name && name.value != "" && known(name.value)
    requires Skip(name.rest) == equals && equals != "" && equals[0] == '='
    requires LabelValue(Skip(equals[1..])) == Ok(value) && Skip(value.rest) == rest && rest != ""
    ensures LabelAt(known, t) == Ok(Scanned(Label(name.value, value.value), rest))
  {
  }

  lemma ScansPrintedLabel(known: Known, p: Printed, rest: string)
    requires Printable(known, p) && rest != "" && !IsSpace(rest[0])
    ensures LabelAt(known, Skip(PrintLabel(p, rest))) == Ok(Scanned(p.item, rest))
  {
    var quoted := Quote(p.item.value, p.after + rest);
    var equals := "=" + (p.afterEquals + quoted);
    var behind := p.beforeEquals + equals;
    var t := p.item.name + behind;
    assert t[0] == p.item.name[0] && equals[1..] == p.afterEquals + quoted;
    assert behind[0] == if p.beforeEquals == "" then '=' else p.beforeEquals[0];
    SkipsSpaces(p.before, t);
    ScansName("", p.item.name, behind);
    assert "" + p.item.name == p.item.name;
    SkipsSpaces(p.beforeEquals, equals);
    SkipsSpaces(p.afterEquals, quoted);
    QuoteRoundTrip(p.item.value, p.after + rest);
    SkipsSpaces(p.after, rest);
    AssembleLabel(known, t, Scanned(p.item.name, behind), equals, Scanned(p.item.value, p.after + rest), rest);
  }

  /** From `t` on, `items` are scanned one after the other, the last before the brace in front of `end`. */
  ghost predicate Chain(at: Scanner, t: string, items: seq<Label>, end: string)
    requires Advances(at)
    decreases |items|
  {
    && items != [] && at(t).Ok? && at(t).value.value == items[0]
    && var rest := at(t).value.rest;
       if |items| == 1 then rest == "}" + end else rest[0] == ',' && Chain(at, Skip(rest[1..]), items[1..], end)
  }

  function Gather(items: seq<Label>, labels: map<string, string>): map<string, string> {
    if items == [] then labels else Gather(items[1..], labels[items[0].name := items[0].value])
  }

  ghost predicate NewNames(items: seq<Label>, labels: map<string, string>) {
    && (forall i :: 0 <= i < |items| ==> items[i].name !in labels)
    && (forall i, j :: 0 <= i < j < |items| ==> items[i].name != items[j].name)
  }

  lemma NewRest(items: seq<Label>, labels: map<string, string>)
    requires items != [] && NewNames(items, labels)
    ensures NewNames(items[1..], labels[items[0].name := items[0].value])
  {
  }

  lemma {:induction false} ChainIsGathered(at: Scanner, t: string, items: seq<Label>, labels: map<string, string>, end: string)
    requires Advances(at) && Chain(at, t, items, end) && NewNames(items, labels)
    ensures Labels(at, t, labels) == Ok(Scanned(Gather(items, labels), end))
    decreases |items|
  {
    var l, rest := items[0], at(t).value.rest;
    var more := labels[l.name := l.value];
    assert l.name !in labels;
    if |items| == 1 {
      assert Gather(items[1..], more) == more && rest[1..] == end;
    } else {
      NewRest(items, labels);
      ChainIsGathered(at, Skip(rest[1..]), items[1..], more, end);
    }
  }

  /** Nothing else is accepted: behind every label set stand labels with different names. */
  lemma {:induction false} OnlyChainsAreGathered(at: Scanner, t: string, labels: map<string, string>) returns (items: seq<Label>)
    requires Advances(at) && Labels(at, t, labels).Ok?
    ensures Chain(at, t, items, Labels(at, t, labels).value.rest) && NewNames(items, labels)
    ensures Labels(at, t, labels).value.value == Gather(items, labels)
    decreases |t|
  {
    var l := at(t).value;
    var more := labels[l.value.name := l.value.value];
    if l.rest[0] == '}' {
      items := [l.value];
      assert l.rest == "}" + l.rest[1..] && Gather(items[1..], more) == more;
    } else {
      var rest := OnlyChainsAreGathered(at, Skip(l.rest[1..]), more);
      items := [l.value] + rest;
      assert items[1..] == rest;
      NewFirst(l.value, rest, labels);
    }
  }

  lemma NewFirst(l: Label, rest: seq<Label>, labels: map<string, string>)
    requires l.name !in labels && NewNames(rest, labels[l.name := l.value])
    ensures NewNames([l] + rest, labels)
  {
    var items := [l] + rest;
    forall i, j | 0 <= i < j < |items|
      ensures items[i].name != items[j].name
    {
      assert items[j] == rest[j - 1] && rest[j - 1].name !in labels[l.name := l.value];
    }
  }

  /** Whatever follows its separator, the printed label is scanned as `item`. */
  ghost predicate Reads(at: Scanner, text: string -> string, item: Label) {
    forall rest :: rest != "" && (rest[0] == ',' || rest[0] == '}') ==> at(Skip(text(rest))) == Ok(Scanned(item, rest))
  }

  lemma {:induction false} JoinedIsChain(at: Scanner, texts: seq<string -> string>, items: seq<Label>, end: string)
    requires Advances(at) && |texts| == |items| > 0 && forall i :: 0 <= i < |texts| ==> Reads(at, texts[i], items[i])
    ensures Chain(at, Skip(Join(texts, end)), items, end)
    decreases |texts|
  {
    assert Reads(at, texts[0], items[0]);
    if |texts| > 1 {
      var more := Join(texts[1..], end);
      JoinedIsChain(at, texts[1..], items[1..], end);
      assert ("," + more)[1..] == more;
    }
  }

  function Items(ps: seq<Printed>): seq<Label> { seq(|ps|, i requires 0 <= i < |ps| => ps[i].item) }

  /** Labels printed in any order with any legal spaces and escapes scan to what they say. */
  lemma LabelSetRoundTrip(known: Known, ps: seq<Printed>, rest: string)
    requires ps != [] && (forall i :: 0 <= i < |ps| ==> Printable(known, ps[i])) && NewNames(Items(ps), map[])
    ensures LabelSet(known, PrintSet(ps, rest)) == Ok(Scanned(Gather(Items(ps), map[]), rest))
  {
    var at, texts := LabelScanner(known), Printers(ps);
    forall i | 0 <= i < |ps|
      ensures Reads(at, texts[i], Items(ps)[i])
    {
      PrintedReads(known, ps[i], texts[i]);
    }
    JoinedIsChain(at, texts, Items(ps), rest);
    ChainIsGathered(at, Skip(Join(texts, rest)), Items(ps), map[], rest);
    assert PrintSet(ps, rest)[1..] == Join(texts, rest);
  }

  lemma PrintedReads(known: Known, p: Printed, text: string -> string)
    requires Printable(known, p) && forall rest :: text(rest) == PrintLabel(p, rest)
    ensures Reads(LabelScanner(known), text, p.item)
  {
    forall rest | rest != "" && (rest[0] == ',' || rest[0] == '}')
      ensures LabelScanner(known)(Skip(text(rest))) == Ok(Scanned(p.item, rest))
    {
      ScansPrintedLabel(known, p, rest);
    }
  }

  // ---- what is accepted was printed ----

  /** No character that would have to be escaped. */
  predicate Plain(s: string) { forall i :: 0 <= i < |s| ==> s[i] != '\\' && s[i] != '"' && s[i] != '\n' }

  lemma {:induction false} SkippedSpaces(t: string) returns (spaces: string)
    ensures AllSpaces(spaces) && t == spaces + Skip(t) && (StartsSpaced(t) ==> spaces != "")
  {
    if StartsSpaced(t) {
      var more := SkippedSpaces(t[1..]);
      spaces := [t[0]] + more;
      assert t == [t[0]] + t[1..];
    } else {
      spaces := "";
    }
  }

  lemma {:induction false} NameIsKept(t: string, done: string)
    ensures var r := Name(t, done);
            && done <= r.value && done + t == r.value + r.rest
            && forall i :: |done| <= i < |r.value| ==> IsLabelNameCharacter(r.value[i], i == 0)
    decreases |t|
  {
    if t != "" && IsLabelNameCharacter(t[0], done == "") {
      NameIsKept(t[1..], done + [t[0]]);
      assert done + [t[0]] + t[1..] == done + t;
      assert Name(t, done).value[|done|] == t[0];
    }
  }

  lemma {:induction false} UnquotedIsEscaped(t: string, done: string, value: string, rest: string)
    requires Unquote(t, done) == Ok(Scanned(value, rest))
    ensures done <= value && (Plain(value) ==> t == Escape(value[|done|..], rest))
    decreases |t|
  {
    if t[0] == '"' {
      assert t == "\"" + rest && value[|done|..] == "";
    } else if t[0] == '\\' {
      var c := Unescape(t[1]).value;
      UnquotedIsEscaped(t[2..], done + [c], value, rest);
      assert value[|done|] == c;
    } else {
      UnquotedIsEscaped(t[1..], done + [t[0]], value, rest);
      assert value[|done|] == t[0] && value[|done|..] == [t[0]] + value[|done| + 1..];
      assert t == [t[0]] + t[1..];
    }
  }

  lemma ValueIsQuoted(t: string, value: string, rest: string)
    requires LabelValue(t) == Ok(Scanned(value, rest)) && Plain(value)
    ensures t == Quote(value, rest)
  {
    UnquotedIsEscaped(t[1..], "", value, rest);
    assert value[0..] == value && t == "\"" + t[1..];
  }

  /** A label that was scanned is the print of itself, with the spaces that stood around it. */
  lemma LabelIsPrinted(known: Known, before: string, t: string, l: Label, rest: string) returns (p: Printed)
    requires AllSpaces(before) && LabelAt(known, t) == Ok(Scanned(l, rest)) && Plain(l.value)
    ensures p.item == l && Printable(known, p) && PrintLabel(p, rest) == before + t
  {
    var name := Name(t, "");
    var equals := Skip(name.rest);
    var quoted := Skip(equals[1..]);
    var value := LabelValue(quoted).value;
    NameIsKept(t, "");
    assert "" + t == t;
    var beforeEquals := SkippedSpaces(name.rest);
    var afterEquals := SkippedSpaces(equals[1..]);
    var after := SkippedSpaces(value.rest);
    ValueIsQuoted(quoted, l.value, value.rest);
    assert equals == "=" + equals[1..];
    p := Printed(l, before, beforeEquals, afterEquals, after);
  }

  lemma {:induction false} LabelsGrow(at: Scanner, t: string, labels: map<string, string>, name: string)
    requires Advances(at) && Labels(at, t, labels).Ok? && name in labels
    ensures name in Labels(at, t, labels).value.value && Labels(at, t, labels).value.value[name] == labels[name]
    decreases |t|
  {
    var l := at(t).value;
    if l.rest[0] == ',' {
      LabelsGrow(at, Skip(l.rest[1..]), labels[l.value.name := l.value.value], name);
    }
  }

  lemma {:induction false} LabelsAreKnown(known: Known, t: string, labels: map<string, string>, name: string)
    requires Labels(LabelScanner(known), t, labels).Ok? && name in Labels(LabelScanner(known), t, labels).value.value
    ensures name in labels || known(name)
    decreases |t|
  {
    var l := LabelAt(known, t).value;
    if l.rest[0] == ',' {
      LabelsAreKnown(known, Skip(l.rest[1..]), labels[l.value.name := l.value.value], name);
    }
  }

  /** `ps` prints the label set `u` up to `end`, and means `result`. */
  ghost predicate Spells(known: Known, ps: seq<Printed>, u: string, labels: map<string, string>, result: map<string, string>, end: string) {
    && ps != [] && (forall i :: 0 <= i < |ps| ==> Printable(known, ps[i])) && NewNames(Items(ps), labels)
    && u == Join(Printers(ps), end) && result == Gather(Items(ps), labels)
  }

  lemma SpellsMore(known: Known, p: Printed, ps: seq<Printed>, u: string, labels: map<string, string>, result: map<string, string>, end: string)
    requires Printable(known, p) && p.item.name !in labels
    requires Spells(known, ps, u, labels[p.item.name := p.item.value], result, end)
    ensures Spells(known, [p] + ps, PrintLabel(p, "," + u), labels, result, end)
  {
    var all := [p] + ps;
    assert Items(all)[1..] == Items(ps) && Items(all) == [p.item] + Items(ps);
    assert Printers(all)[1..] == Printers(ps);
    NewFirst(p.item, Items(ps), labels);
  }

  lemma SpellsLast(known: Known, p: Printed, labels: map<string, string>, end: string)
    requires Printable(known, p) && p.item.name !in labels
    ensures Spells(known, [p], PrintLabel(p, "}" + end), labels, labels[p.item.name := p.item.value], end)
  {
    assert Items([p]) == [p.item] && Items([p])[1..] == [];
  }

  lemma LabelIsPrintedBy(at: Scanner, known: Known, before: string, t: string, l: Label, rest: string) returns (p: Printed)
    requires Implements(at, known) && AllSpaces(before) && at(t) == Ok(Scanned(l, rest)) && Plain(l.value)
    ensures p.item == l && Printable(known, p) && PrintLabel(p, rest) == before + t
  {
    assert LabelAt(known, t) == at(t);
    p := LabelIsPrinted(known, before, t, l, rest);
  }

  lemma {:induction false} LabelsArePrinted(
    at: Scanner, known: Known, u: string, labels: map<string, string>, result: map<string, string>, end: string)
    returns (ps: seq<Printed>)
    requires Implements(at, known) && Advances(at)
    requires Labels(at, Skip(u), labels) == Ok(Scanned(result, end)) && forall n :: n in result ==> Plain(result[n])
    ensures Spells(known, ps, u, labels, result, end)
    decreases |u|
  {
    var t := Skip(u);
    var l, rest := at(t).value.value, at(t).value.rest;
    var more := labels[l.name := l.value];
    var before := SkippedSpaces(u);
    if rest[0] == ',' {
      LabelsGrow(at, Skip(rest[1..]), more, l.name);
      var p := LabelIsPrintedBy(at, known, before, t, l, rest);
      var tail := LabelsArePrinted(at, known, rest[1..], more, result, end);
      assert rest == "," + rest[1..];
      SpellsMore(known, p, tail, rest[1..], labels, result, end);
      ps := [p] + tail;
    } else {
      assert result == more && rest == "}" + end && Plain(result[l.name]);
      var p := LabelIsPrintedBy(at, known, before, t, l, rest);
      SpellsLast(known, p, labels, end);
      ps := [p];
    }
  }

  /** An accepted label set without special characters in its values is the print of its labels. */
  lemma LabelSetIsPrinted(known: Known, t: string, result: map<string, string>, end: string) returns (ps: seq<Printed>)
    requires LabelSet(known, t) == Ok(Scanned(result, end)) && forall n :: n in result ==> Plain(result[n])
    ensures ps != [] && (forall i :: 0 <= i < |ps| ==> Printable(known, ps[i])) && NewNames(Items(ps), map[])
    ensures t == PrintSet(ps, end) && result == Gather(Items(ps), map[])
  {
    ps := LabelsArePrinted(LabelScanner(known), known, t[1..], map[], result, end);
    assert t == "{" + t[1..];
  }
}
