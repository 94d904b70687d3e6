/** Which names a record may carry, told by their characters and parts. */
module ApiNames {
  import opened Common
  import opened Decimal
  import opened ApiRecords

  /** A DNS label: 1 to 63 lower-case letters, digits and hyphens, with no hyphen at either end. */
  predicate IsLabel(s: string) {
    && 1 <= |s| <= 63 && s[0] != '-' && s[|s| - 1] != '-'
    && forall i :: 0 <= i < |s| ==> 'a' <= s[i] <= 'z' || '0' <= s[i] <= '9' || s[i] == '-'
  }

  /** The parts with dots between them. */
  function Dotted(parts: seq<string>): string
    requires parts != []
  {
    if |parts| == 1 then parts[0] else parts[0] + ("." + Dotted(parts[1..]))
  }

  ghost predicate IsDotted(s: string, parts: seq<string>) {
    parts != [] && (forall i :: 0 <= i < |parts| ==> IsLabel(parts[i])) && s == Dotted(parts)
  }

  lemma LabelIff(s: string)
    ensures IsDnsLabel(s) <==> IsLabel(s)
  {
    if |s| > 0 {
      assert IsLabel(s) ==> IsLowerAlphaNumeric(s[0]) && IsLowerAlphaNumeric(s[|s| - 1]);
    }
  }

  /** Cutting at the first dot. */
  lemma {:induction false} CutsAtDot(first: string, rest: string, done: string)
    requires '.' !in first
    ensures Cut(first + ("." + rest), done) == (done + first, Some(rest)) && Cut(first, done) == (done + first, None)
    decreases |first|
  {
    if first == "" {
      assert first + ("." + rest) == "." + rest && ("." + rest)[1..] == rest && done + first == done;
    } else {
      CutsAtDot(first[1..], rest, done + [first[0]]);
      assert (first + ("." + rest))[1..] == first[1..] + ("." + rest) && done + [first[0]] + first[1..] == done + first;
    }
  }

  lemma LabelHasNoDot(s: string)
    requires IsLabel(s)
    ensures '.' !in s
  {
  }

  lemma {:induction false} DottedIsAccepted(s: string, parts: seq<string>)
    requires IsDotted(s, parts)
    ensures AllDnsLabels(s)
    decreases |parts|
  {
    LabelHasNoDot(parts[0]);
    LabelIff(parts[0]);
    if |parts| == 1 {
      CutsAtDot(parts[0], "", "");
      assert "" + parts[0] == parts[0];
    } else {
      CutsAtDot(parts[0], Dotted(parts[1..]), "");
      assert "" + parts[0] == parts[0];
      DottedIsAccepted(Dotted(parts[1..]), parts[1..]);
    }
  }

  lemma {:induction false} AcceptedIsDotted(s: string) returns (parts: seq<string>)
    requires AllDnsLabels(s)
    ensures IsDotted(s, parts)
    decreases |s|
  {
    CutIsShorter(s, "");
    CutIsKept(s, "");
    var (first, rest) := Cut(s, "");
    assert "" + s == s;
    LabelIff(first);
    if rest.None? {
      parts := [first];
    } else {
      var more := AcceptedIsDotted(rest.value);
      parts := [first] + more;
      assert parts[1..] == more && s == first + ("." + rest.value);
    }
  }

  /** The name is a label, a dot, and nothing or labels with dots between them. */
  ghost predicate IsService(name: string, version: string, group: string) {
    IsLabel(version) && name == version + ("." + group) && (group == "" || exists parts :: IsDotted(group, parts))
  }

  lemma ServiceIff(name: string)
    ensures IsApiServiceName(name) <==> |name| <= 253 && exists version, group :: IsService(name, version, group)
  {
    CutIsKept(name, "");
    assert "" + name == name;
    var (first, rest) := Cut(name, "");
    LabelIff(first);
    if rest.Some? {
      GroupIff(rest.value);
      if IsApiServiceName(name) { assert IsService(name, first, rest.value); }
    }
    if version, group :| IsService(name, version, group) {
      LabelHasNoDot(version);
      CutsAtDot(version, group, "");
      assert "" + version == version;
    }
  }

  /** A record is valid exactly if its version and group, with a dot between them, name an API service,
      its resource is a label, its subresource is empty or a label, and its release is two canonical
      16-bit numbers with a dot between them. */
  lemma ValidRecordIff(r: Record)
    ensures ValidRecord(r) <==>
              && |r.version| + 1 + |r.group| <= 253 && (exists v, g :: IsService(r.version + "." + r.group, v, g))
              && IsLabel(r.resource) && (r.subresource == "" || IsLabel(r.subresource))
              && exists x: Release :: IsRelease(r.removedRelease, x)
  {
    ServiceIff(r.version + "." + r.group);
    LabelIff(r.resource);
    LabelIff(r.subresource);
    ReleaseIff(r.removedRelease);
  }

  lemma GroupIff(group: string)
    ensures group != "" ==> (AllDnsLabels(group) <==> exists parts :: IsDotted(group, parts))
  {
    if group != "" && AllDnsLabels(group) {
      var parts := AcceptedIsDotted(group);
    }
    if parts :| IsDotted(group, parts) {
      DottedIsAccepted(group, parts);
    }
  }

  predicate IsRelease(text: string, x: Release) { x.major <= 65535 && x.minor <= 65535 && text == Format(x.major) + "." + Format(x.minor) }

  lemma ReleaseIff(text: string)
    ensures ParseRelease(text).Some? <==> exists x: Release :: IsRelease(text, x)
  {
    if ParseRelease(text).Some? {
      ReleaseIsPrinted(text);
      assert IsRelease(text, ParseRelease(text).value);
    }
    if x: Release :| IsRelease(text, x) {
      PrintedIsRelease(x);
    }
  }
}
