/** internal/kubernetes/deployment_revision_history.go, from decoded metadata onwards. */
module DeploymentRevisions {
  import opened Common
  import opened Decimal

  const MAX_REVISION := 0x7fff_ffff

  /** The revision numbers are exactly the numerals of 1..2^31-1. */
  function Canonical(value: string): Result<int> {
    if value != "" && AllDigits(value) && value[0] != '0' && Value(value) <= MAX_REVISION then Ok(Value(value)) else Err(Upstream)
  }

  lemma CanonicalRoundTrip(n: int)
    requires 1 <= n <= MAX_REVISION
    ensures Canonical(Format(n)) == Ok(n)
  {
    FormatIsCanonical(n);
  }

  /** With the round trip: a bijection between accepted strings and 1..2^31-1. */
  lemma AcceptedIsFormatted(value: string)
    requires Canonical(value).Ok?
    ensures 1 <= Canonical(value).value <= MAX_REVISION && Format(Canonical(value).value) == value && |value| <= 10
  {
    CanonicalIsFormatted(value);
    NumeralIsShort(value, 10);
  }

  method CanonicalDeploymentRevision(value: string) returns (r: Result<int>)
    ensures r == Canonical(value)
    ensures forall n :: 1 <= n <= MAX_REVISION ==> (r == Ok(n) <==> value == Format(n))
  {
    forall n | 1 <= n <= MAX_REVISION
      ensures Canonical(value) == Ok(n) <==> value == Format(n)
    {
      CanonicalRoundTrip(n);
      if Canonical(value) == Ok(n) { AcceptedIsFormatted(value); }
    }
    if value == "" || |value| > 10 || value[0] == '0' {
      if Canonical(value).Ok? { AcceptedIsFormatted(value); }
      return Err(Upstream);
    }
    for i := 0 to |value|
      invariant forall j :: 0 <= j < i ==> IsDigit(value[j])
    {
      if value[i] < '0' || value[i] > '9' {
        return Err(Upstream);
      }
    }
    var parsed := Value(value);
    if parsed > MAX_REVISION || parsed <= 0 || Format(parsed) != value {
      if Canonical(value).Ok? { AcceptedIsFormatted(value); }
      return Err(Upstream);
    }
    r := Ok(parsed);
  }
}

module DeploymentHistory {
  import opened Common
  import opened Sorting
  import opened DeploymentRevisions

  const MAX_PAGES := 4
  const MAX_ITEMS := 1000
  const MAX_RESULTS := 20
  const MAX_PAGE_BYTES := 2 * 1024 * 1024
  const MAX_LIST_BYTES := 4 * 1024 * 1024

  /** `wellFormed` stands for the checks of characters and lengths. */
  datatype Owner = Owner(controller: Option<bool>, wellFormed: bool, apiVersion: string, kind: string, name: string, uid: string)

  datatype ReplicaSet = ReplicaSet(wellFormed: bool, name: string, createdAt: int, owners: seq<Owner>, annotation: Option<string>)

  datatype Revision = Revision(revision: int, replicaSet: string, createdAt: int, current: bool)

  /** The Deployment asked about; revision 0 means it has no annotation. */
  datatype Deployment = Deployment(name: string, uid: string, current: int)

  datatype Page = Page(bytes: nat, wellFormed: bool, items: seq<ReplicaSet>, next: string)

  datatype History = History(unassigned: nat, revisions: seq<Revision>, truncated: bool)

  datatype Ownership = Foreign | Unassigned | Assigned(revision: Revision)

  // ---- one ReplicaSet ----

  function Controllers(owners: seq<Owner>): seq<Owner> {
    if owners == [] then []
    else (if owners[0].controller == Some(true) then [owners[0]] else []) + Controllers(owners[1..])
  }

  predicate Owns(d: Deployment, o: Owner) {
    o.apiVersion == "apps/v1" && o.kind == "Deployment" && o.name == d.name && o.uid == d.uid
  }

  function Numbered(d: Deployment, rs: ReplicaSet, n: int): Revision {
    Revision(n, rs.name, rs.createdAt, d.current > 0 && n == d.current)
  }

  /** A ReplicaSet belongs to the Deployment exactly if that is its one controller. */
  function Judge(d: Deployment, rs: ReplicaSet): Result<Ownership> {
    var controllers := Controllers(rs.owners);
    if !rs.wellFormed || |controllers| > 1 || (|controllers| == 1 && !controllers[0].wellFormed) then Err(Upstream)
    else if controllers == [] || !Owns(d, controllers[0]) then Ok(Foreign)
    else if rs.annotation.None? then Ok(Unassigned)
    else match Canonical(rs.annotation.value)
      case Err(e) => Err(e)
      case Ok(n) => Ok(Assigned(Numbered(d, rs, n)))
  }

  lemma {:induction false} ControllersAppend(a: seq<Owner>, o: Owner)
    ensures Controllers(a + [o]) == Controllers(a) + if o.controller == Some(true) then [o] else []
  {
    if a == [] {
      assert a + [o] == [o];
    } else {
      ControllersAppend(a[1..], o);
      assert (a + [o])[1..] == a[1..] + [o];
    }
  }

  lemma {:induction false} ControllersOfPrefix(owners: seq<Owner>, k: nat)
    requires k <= |owners|
    ensures Controllers(owners[..k]) <= Controllers(owners)
    decreases |owners| - k
  {
    if k < |owners| {
      ControllersOfPrefix(owners, k + 1);
      ControllersAppend(owners[..k], owners[k]);
      assert owners[..k + 1] == owners[..k] + [owners[k]];
    } else {
      assert owners[..k] == owners;
    }
  }

  method DecodeDeploymentReplicaSetRevision(d: Deployment, rs: ReplicaSet) returns (r: Result<Ownership>)
    ensures r == Judge(d, rs)
  {
    if !rs.wellFormed {
      return Err(Upstream);
    }
    var controllerCount := 0;
    var owned := false;
    for i := 0 to |rs.owners|
      invariant controllerCount == |Controllers(rs.owners[..i])|
      invariant owned <==> controllerCount > 0 && Owns(d, Controllers(rs.owners[..i])[controllerCount - 1])
      invariant forall j :: 0 <= j < controllerCount ==> Controllers(rs.owners[..i])[j].wellFormed
    {
      var owner := rs.owners[i];
      ControllersAppend(rs.owners[..i], owner);
      assert rs.owners[..i + 1] == rs.owners[..i] + [owner];
      ControllersOfPrefix(rs.owners, i + 1);
      if owner.controller != Some(true) {
        continue;
      }
      controllerCount := controllerCount + 1;
      if !owner.wellFormed {
        assert Controllers(rs.owners[..i + 1])[controllerCount - 1] == owner;
        return Err(Upstream);
      }
      owned := Owns(d, owner);
    }
    assert rs.owners[..|rs.owners|] == rs.owners;
    if controllerCount > 1 {
      return Err(Upstream);
    }
    if !owned {
      return Ok(Foreign);
    }
    if rs.annotation.None? {
      return Ok(Unassigned);
    }
    var revision := CanonicalDeploymentRevision(rs.annotation.value);
    if revision.Err? {
      return Err(revision.error);
    }
    r := Ok(Assigned(Numbered(d, rs, revision.value)));
  }

  // ---- all ReplicaSets ----

  ghost predicate AllJudged(d: Deployment, items: seq<ReplicaSet>) {
    forall i :: 0 <= i < |items| ==> Judge(d, items[i]).Ok?
  }

  /** The revisions of the owned and annotated ReplicaSets, in order. */
  function Assignments(d: Deployment, items: seq<ReplicaSet>): seq<Revision> {
    if items == [] then []
    else First(d, items[0]) + Assignments(d, items[1..])
  }

  function CountUnassigned(d: Deployment, items: seq<ReplicaSet>): nat {
    if items == [] then 0 else (if Judge(d, items[0]) == Ok(Unassigned) then 1 else 0) + CountUnassigned(d, items[1..])
  }

  function CountOwned(d: Deployment, items: seq<ReplicaSet>): nat {
    if items == [] then 0
    else (if Judge(d, items[0]).Ok? && !Judge(d, items[0]).value.Foreign? then 1 else 0) + CountOwned(d, items[1..])
  }

  lemma {:induction false} OwnedIsAssignedOrUnassigned(d: Deployment, items: seq<ReplicaSet>)
    ensures CountOwned(d, items) == |Assignments(d, items)| + CountUnassigned(d, items)
  {
    if items != [] { OwnedIsAssignedOrUnassigned(d, items[1..]); }
  }

  function First(d: Deployment, rs: ReplicaSet): seq<Revision> {
    match Judge(d, rs) case Ok(Assigned(r)) => [r] case _ => []
  }

  lemma AssignmentsOfFirst(d: Deployment, a: seq<ReplicaSet>, b: seq<ReplicaSet>)
    requires a != []
    ensures Assignments(d, a + b) == First(d, a[0]) + Assignments(d, a[1..] + b)
    ensures CountUnassigned(d, a + b) == (if Judge(d, a[0]) == Ok(Unassigned) then 1 else 0) + CountUnassigned(d, a[1..] + b)
  {
    assert (a + b)[1..] == a[1..] + b;
  }

  lemma Regroup(x: seq<Revision>, y: seq<Revision>, z: seq<Revision>)
    ensures x + (y + z) == (x + y) + z
  {
  }

  lemma {:induction false} AssignmentsAppend(d: Deployment, a: seq<ReplicaSet>, b: seq<ReplicaSet>)
    ensures Assignments(d, a + b) == Assignments(d, a) + Assignments(d, b)
    ensures CountUnassigned(d, a + b) == CountUnassigned(d, a) + CountUnassigned(d, b)
  {
    if a == [] {
      assert a + b == b;
    } else {
      AssignmentsAppend(d, a[1..], b);
      AssignmentsOfFirst(d, a, b);
      Regroup(First(d, a[0]), Assignments(d, a[1..]), Assignments(d, b));
    }
  }

  /** No two revisions carry one number. */
  ghost predicate DistinctNumbers(revisions: seq<Revision>) {
    forall i, j :: 0 <= i < j < |revisions| ==> revisions[i].revision != revisions[j].revision
  }

  ghost predicate Mentions(revisions: seq<Revision>, n: int) {
    exists i :: 0 <= i < |revisions| && revisions[i].revision == n
  }

  lemma OneMore(revisions: seq<Revision>, r: Revision)
    requires DistinctNumbers(revisions)
    ensures DistinctNumbers(revisions + [r]) <==> !Mentions(revisions, r.revision)
  {
    var all := revisions + [r];
    if i :| 0 <= i < |revisions| && revisions[i].revision == r.revision {
      assert all[i].revision == all[|revisions|].revision;
    }
  }

  lemma DistinctPrefix(a: seq<Revision>, b: seq<Revision>)
    requires DistinctNumbers(a + b)
    ensures DistinctNumbers(a)
  {
    forall i, j | 0 <= i < j < |a|
      ensures a[i].revision != a[j].revision
    {
      assert (a + b)[i] == a[i] && (a + b)[j] == a[j];
    }
  }

  // ---- what the caller gets ----

  predicate Newer(a: Revision, b: Revision) { a.revision > b.revision }

  function Bounded(unassigned: nat, revisions: seq<Revision>): History {
    var sorted := Sort(Newer, revisions);
    History(unassigned, if |sorted| > MAX_RESULTS then sorted[..MAX_RESULTS] else sorted, |revisions| > MAX_RESULTS)
  }

  /** The newest min(20, n) revisions, strictly descending; whatever is missing is older than all of
      them, and `truncated` says whether anything is missing. */
  ghost predicate IsTop(revisions: seq<Revision>, h: History) {
    && |h.revisions| == Min(20, |revisions|)
    && (forall r :: r in h.revisions ==> r in revisions)
    && (forall i, j :: 0 <= i < j < |h.revisions| ==> h.revisions[i].revision > h.revisions[j].revision)
    && (forall r, s :: r in revisions && r !in h.revisions && s in h.revisions ==> s.revision > r.revision)
    && (h.truncated <==> |h.revisions| < |revisions|)
  }

  lemma BoundedIsTop(unassigned: nat, revisions: seq<Revision>)
    requires DistinctNumbers(revisions)
    ensures IsTop(revisions, Bounded(unassigned, revisions))
  {
    var sorted := Sort(Newer, revisions);
    var h := Bounded(unassigned, revisions);
    SortIsPermutation(Newer, revisions);
    SortSorts(Newer, revisions);
    SameMembers(sorted, revisions);
    SameMembers(revisions, sorted);
    SortedIsDistinct(revisions, sorted);
    forall r, s | r in revisions && r !in h.revisions && s in h.revisions
      ensures s.revision > r.revision
    {
      var i :| 0 <= i < |sorted| && sorted[i] == r;
      var j :| 0 <= j < |h.revisions| && h.revisions[j] == s;
      assert sorted[j] == s && j < i;
    }
  }

  lemma SortedIsDistinct(revisions: seq<Revision>, sorted: seq<Revision>)
    requires DistinctNumbers(revisions) && multiset(sorted) == multiset(revisions)
    ensures DistinctNumbers(sorted)
  {
    forall i, j | 0 <= i < j < |sorted|
      ensures sorted[i].revision != sorted[j].revision
    {
      if sorted[i].revision == sorted[j].revision {
        TwoOfOne(revisions, sorted, i, j);
      }
    }
  }

  lemma NumbersAreElements(revisions: seq<Revision>)
    requires DistinctNumbers(revisions)
    ensures Distinct(revisions)
  {
  }

  /** A permutation of distinct numbers has no number twice. */
  lemma TwoOfOne(revisions: seq<Revision>, sorted: seq<Revision>, i: nat, j: nat)
    requires DistinctNumbers(revisions) && multiset(sorted) == multiset(revisions) && i < j < |sorted|
    ensures sorted[i].revision != sorted[j].revision
  {
    SameMembers(sorted, revisions);
    assert sorted[i] in revisions && sorted[j] in revisions;
    var a :| 0 <= a < |revisions| && revisions[a] == sorted[i];
    var b :| 0 <= b < |revisions| && revisions[b] == sorted[j];
    NumbersAreElements(revisions);
    AtMostOnce(revisions, sorted[i]);
    if a == b {
      AtLeastTwice(sorted, i, j);
    }
  }

  /** At most one revision is the current one. */
  lemma OneCurrent(d: Deployment, items: seq<ReplicaSet>, i: nat, j: nat)
    requires var h := Bounded(0, Assignments(d, items));
             DistinctNumbers(Assignments(d, items)) && i < |h.revisions| && j < |h.revisions|
             && h.revisions[i].current && h.revisions[j].current
    ensures i == j && Bounded(0, Assignments(d, items)).revisions[i].revision == d.current
  {
    var revisions := Assignments(d, items);
    var h := Bounded(0, revisions);
    BoundedIsTop(0, revisions);
    AssignmentsAreNumbered(d, items);
    assert h.revisions[i] in revisions && h.revisions[j] in revisions;
  }

  lemma {:induction false} AssignmentsAreNumbered(d: Deployment, items: seq<ReplicaSet>)
    ensures forall r :: r in Assignments(d, items) ==> (r.current <==> d.current > 0 && r.revision == d.current)
  {
    if items != [] { AssignmentsAreNumbered(d, items[1..]); }
  }

  // ---- reading the pages ----

  /** What a server answers may depend on every token it was asked with. */
  type Server = seq<string> -> Result<Page>

  /** Which continue tokens pass the checks of characters and length. */
  type TokenCheck = string -> bool

  datatype Tally = Tally(revisions: seq<Revision>, unassigned: nat, items: nat, bytes: nat, pages: nat, tokens: set<string>)

  const NOTHING := Tally([], 0, 0, 0, 0, {})

  datatype Counted = Counted(revisions: seq<Revision>, unassigned: nat)

  function Count(d: Deployment, items: seq<ReplicaSet>, c: Counted): Result<Counted>
    decreases |items|
  {
    if items == [] then Ok(c)
    else match Judge(d, items[0])
      case Err(e) => Err(e)
      case Ok(Foreign) => Count(d, items[1..], c)
      case Ok(Unassigned) => Count(d, items[1..], c.(unassigned := c.unassigned + 1))
      case Ok(Assigned(r)) =>
        if r.revision in Numbers(c.revisions) then Err(Upstream) else Count(d, items[1..], c.(revisions := c.revisions + [r]))
  }

  function Numbers(revisions: seq<Revision>): set<int> { set r | r in revisions :: r.revision }

  /** A page is counted exactly if each of its ReplicaSets is sound and no revision number repeats. */
  lemma {:induction false} CountIsExact(d: Deployment, items: seq<ReplicaSet>, c: Counted)
    requires DistinctNumbers(c.revisions)
    ensures Count(d, items, c).Ok? <==> AllJudged(d, items) && DistinctNumbers(c.revisions + Assignments(d, items))
    ensures Count(d, items, c).Ok? ==>
              Count(d, items, c).value == Counted(c.revisions + Assignments(d, items), c.unassigned + CountUnassigned(d, items))
    decreases |items|
  {
    if items == [] {
      assert c.revisions + [] == c.revisions;
    } else {
      var rest := Assignments(d, items[1..]);
      assert AllJudged(d, items) <==> Judge(d, items[0]).Ok? && AllJudged(d, items[1..]) by {
        assert items == [items[0]] + items[1..];
      }
      match Judge(d, items[0])
      case Err(_) =>
      case Ok(Foreign) =>
        assert Assignments(d, items) == rest;
        CountIsExact(d, items[1..], c);
      case Ok(Unassigned) =>
        assert Assignments(d, items) == rest;
        CountIsExact(d, items[1..], c.(unassigned := c.unassigned + 1));
      case Ok(Assigned(r)) =>
        Regroup(c.revisions, [r], rest);
        OneMore(c.revisions, r);
        if r.revision in Numbers(c.revisions) {
          if DistinctNumbers(c.revisions + Assignments(d, items)) {
            DistinctPrefix(c.revisions + [r], rest);
          }
        } else {
          CountIsExact(d, items[1..], c.(revisions := c.revisions + [r]));
        }
    }
  }

  function TakePage(d: Deployment, t: Tally, page: Page): Result<Tally> {
    if page.bytes > Min(MAX_LIST_BYTES - t.bytes, MAX_PAGE_BYTES) || !page.wellFormed || |page.items| > MAX_ITEMS - t.items then Err(Upstream)
    else match Count(d, page.items, Counted(t.revisions, t.unassigned))
      case Err(e) => Err(e)
      case Ok(c) => Ok(Tally(c.revisions, c.unassigned, t.items + |page.items|, t.bytes + page.bytes, t.pages + 1, t.tokens))
  }

  function ReadPages(server: Server, valid: TokenCheck, d: Deployment, token: string, t: Tally, log: seq<string>): Result<Tally>
    decreases MAX_PAGES - t.pages
  {
    if t.pages >= MAX_PAGES || t.bytes >= MAX_LIST_BYTES then Err(Upstream)
    else match server(log + [token])
      case Err(e) => Err(e)
      case Ok(page) => match TakePage(d, t, page)
        case Err(e) => Err(e)
        case Ok(u) =>
          if page.next == "" then Ok(u)
          else if !valid(page.next) || page.next in t.tokens then Err(Upstream)
          else ReadPages(server, valid, d, page.next, u.(tokens := t.tokens + {page.next}), log + [token])
  }

  // ---- what a complete answer is ----

  /** `pages` is the whole collection, as the server hands it out from here. */
  predicate IsCollection(server: Server, token: string, log: seq<string>, pages: seq<Page>)
    decreases |pages|
  {
    && pages != [] && server(log + [token]) == Ok(pages[0])
    && if pages[0].next == "" then |pages| == 1 else IsCollection(server, pages[0].next, log + [token], pages[1..])
  }

  function AllItems(pages: seq<Page>): seq<ReplicaSet> {
    if pages == [] then [] else pages[0].items + AllItems(pages[1..])
  }

  /** Each page is well formed and within what the byte limits leave for it. */
  predicate Paced(bytes: nat, pages: seq<Page>)
    decreases |pages|
  {
    pages == [] ||
    (bytes < MAX_LIST_BYTES && pages[0].wellFormed && pages[0].bytes <= Min(MAX_LIST_BYTES - bytes, MAX_PAGE_BYTES)
     && Paced(bytes + pages[0].bytes, pages[1..]))
  }

  /** No token between pages is malformed or repeats an earlier one. */
  predicate Linked(valid: TokenCheck, seen: set<string>, pages: seq<Page>)
    decreases |pages|
  {
    |pages| <= 1 ||
    (valid(pages[0].next) && pages[0].next !in seen && Linked(valid, seen + {pages[0].next}, pages[1..]))
  }

  /** Every ReplicaSet is sound, and no revision number occurs twice. */
  ghost predicate Sound(d: Deployment, revisions: seq<Revision>, items: seq<ReplicaSet>) {
    AllJudged(d, items) && DistinctNumbers(revisions + Assignments(d, items))
  }

  ghost predicate Acceptable(valid: TokenCheck, d: Deployment, t: Tally, pages: seq<Page>) {
    && t.pages + |pages| <= MAX_PAGES && Paced(t.bytes, pages) && Linked(valid, t.tokens, pages)
    && t.items + |AllItems(pages)| <= MAX_ITEMS && Sound(d, t.revisions, AllItems(pages))
  }

  lemma JudgedTogether(d: Deployment, a: seq<ReplicaSet>, b: seq<ReplicaSet>)
    ensures AllJudged(d, a + b) <==> AllJudged(d, a) && AllJudged(d, b)
  {
    if AllJudged(d, a + b) {
      forall i | 0 <= i < |a| ensures Judge(d, a[i]).Ok? { assert (a + b)[i] == a[i]; }
      forall i | 0 <= i < |b| ensures Judge(d, b[i]).Ok? { assert (a + b)[|a| + i] == b[i]; }
    }
  }

  lemma SoundSplits(d: Deployment, revisions: seq<Revision>, here: seq<ReplicaSet>, rest: seq<ReplicaSet>)
    ensures Sound(d, revisions, here + rest) <==> Sound(d, revisions, here) && Sound(d, revisions + Assignments(d, here), rest)
  {
    AssignmentsAppend(d, here, rest);
    JudgedTogether(d, here, rest);
    Regroup(revisions, Assignments(d, here), Assignments(d, rest));
    if Sound(d, revisions, here + rest) {
      DistinctPrefix(revisions + Assignments(d, here), Assignments(d, rest));
    }
  }

  /** A page is taken exactly if it is within the limits and sound together with what was counted. */
  lemma PageIsTaken(d: Deployment, t: Tally, page: Page)
    requires DistinctNumbers(t.revisions)
    ensures TakePage(d, t, page).Ok?
            <==> page.wellFormed && page.bytes <= Min(MAX_LIST_BYTES - t.bytes, MAX_PAGE_BYTES) && t.items + |page.items| <= MAX_ITEMS
                 && Sound(d, t.revisions, page.items)
    ensures TakePage(d, t, page).Ok? ==>
              TakePage(d, t, page).value
              == Tally(t.revisions + Assignments(d, page.items), t.unassigned + CountUnassigned(d, page.items),
                       t.items + |page.items|, t.bytes + page.bytes, t.pages + 1, t.tokens)
  {
    CountIsExact(d, page.items, Counted(t.revisions, t.unassigned));
  }

  /** Whether a collection is acceptable is decided page by page. */
  lemma AcceptableSplits(valid: TokenCheck, d: Deployment, t: Tally, pages: seq<Page>)
    requires pages != [] && DistinctNumbers(t.revisions)
    ensures Acceptable(valid, d, t, pages) ==> t.pages < MAX_PAGES && t.bytes < MAX_LIST_BYTES && TakePage(d, t, pages[0]).Ok?
    ensures TakePage(d, t, pages[0]).Ok? && t.pages < MAX_PAGES && t.bytes < MAX_LIST_BYTES ==>
              var u := TakePage(d, t, pages[0]).value;
              && DistinctNumbers(u.revisions) && u.revisions == t.revisions + Assignments(d, pages[0].items)
              && u.unassigned == t.unassigned + CountUnassigned(d, pages[0].items)
              && (|pages| == 1 ==> Acceptable(valid, d, t, pages))
              && (|pages| > 1 ==>
                    (Acceptable(valid, d, t, pages) <==>
                       valid(pages[0].next) && pages[0].next !in t.tokens
                       && Acceptable(valid, d, u.(tokens := t.tokens + {pages[0].next}), pages[1..])))
  {
    var here, rest := pages[0].items, AllItems(pages[1..]);
    PageIsTaken(d, t, pages[0]);
    SoundSplits(d, t.revisions, here, rest);
    assert AllItems(pages) == here + rest;
    if |pages| == 1 {
      assert here + [] == here;
    }
  }

  /** An acceptable collection is read whole. */
  lemma {:induction false} WholeCollectionIsRead(
    server: Server, valid: TokenCheck, d: Deployment, token: string, t: Tally, log: seq<string>, pages: seq<Page>)
    requires IsCollection(server, token, log, pages) && DistinctNumbers(t.revisions) && Acceptable(valid, d, t, pages)
    ensures var r := ReadPages(server, valid, d, token, t, log);
            && r.Ok? && r.value.revisions == t.revisions + Assignments(d, AllItems(pages))
            && r.value.unassigned == t.unassigned + CountUnassigned(d, AllItems(pages))
    decreases |pages|
  {
    AcceptableSplits(valid, d, t, pages);
    var here, rest := pages[0].items, AllItems(pages[1..]);
    AssignmentsAppend(d, here, rest);
    Regroup(t.revisions, Assignments(d, here), Assignments(d, rest));
    if pages[0].next == "" {
      assert pages[1..] == [] && here + [] == here;
    } else {
      var u := TakePage(d, t, pages[0]).value;
      WholeCollectionIsRead(server, valid, d, pages[0].next, u.(tokens := t.tokens + {pages[0].next}), log + [token], pages[1..]);
    }
  }

  /** Nothing but a whole acceptable collection is ever returned. */
  lemma {:induction false} OnlyWholeCollectionsAreRead(
    server: Server, valid: TokenCheck, d: Deployment, token: string, t: Tally, log: seq<string>)
    returns (pages: seq<Page>)
    requires ReadPages(server, valid, d, token, t, log).Ok? && DistinctNumbers(t.revisions)
    ensures IsCollection(server, token, log, pages) && Acceptable(valid, d, t, pages)
    decreases MAX_PAGES - t.pages
  {
    var page := server(log + [token]).value;
    var u := TakePage(d, t, page).value;
    AcceptableSplits(valid, d, t, [page]);
    var rest := [];
    if page.next != "" {
      rest := OnlyWholeCollectionsAreRead(server, valid, d, page.next, u.(tokens := t.tokens + {page.next}), log + [token]);
    }
    pages := [page] + rest;
    assert pages[1..] == rest;
    AcceptableSplits(valid, d, t, pages);
  }

  // ---- the loops ----

  method CountItems(d: Deployment, items: seq<ReplicaSet>, c: Counted) returns (r: Result<Counted>)
    ensures r == Count(d, items, c)
  {
    var revisions, unassigned, seen := c.revisions, c.unassigned, Numbers(c.revisions);
    assert items[0..] == items;
    for i := 0 to |items|
      invariant seen == Numbers(revisions) && Count(d, items, c) == Count(d, items[i..], Counted(revisions, unassigned))
    {
      assert items[i..][1..] == items[i + 1..];
      var judged := DecodeDeploymentReplicaSetRevision(d, items[i]);
      match judged {
        case Err(e) => return Err(e);
        case Ok(Foreign) =>
        case Ok(Unassigned) => unassigned := unassigned + 1;
        case Ok(Assigned(revision)) =>
          if revision.revision in seen {
            return Err(Upstream);
          }
          seen := seen + {revision.revision};
          revisions := revisions + [revision];
      }
    }
    r := Ok(Counted(revisions, unassigned));
  }

  method TakeResponse(d: Deployment, t: Tally, response: Page, pageBytes: int) returns (r: Result<Tally>)
    requires pageBytes == Min(MAX_LIST_BYTES - t.bytes, MAX_PAGE_BYTES)
    ensures r == TakePage(d, t, response)
  {
    if response.bytes > pageBytes || !response.wellFormed || |response.items| > MAX_ITEMS - t.items {
      return Err(Upstream);
    }
    var counted := CountItems(d, response.items, Counted(t.revisions, t.unassigned));
    if counted.Err? {
      return Err(counted.error);
    }
    var c := counted.value;
    r := Ok(Tally(c.revisions, c.unassigned, t.items + |response.items|, t.bytes + response.bytes, t.pages + 1, t.tokens));
  }

  /** `pages` are the whole collection, and an acceptable one. */
  ghost predicate IsAnswer(server: Server, valid: TokenCheck, d: Deployment, pages: seq<Page>) {
    IsCollection(server, "", [], pages) && Acceptable(valid, d, NOTHING, pages)
  }

  lemma ReadPagesAnswers(server: Server, valid: TokenCheck, d: Deployment)
    ensures var t := ReadPages(server, valid, d, "", NOTHING, []);
            && (t.Ok? <==> exists pages :: IsAnswer(server, valid, d, pages))
            && forall pages :: IsAnswer(server, valid, d, pages) ==>
                 t.Ok? && IsTop(Assignments(d, AllItems(pages)), Bounded(t.value.unassigned, t.value.revisions))
                 && t.value.unassigned == CountUnassigned(d, AllItems(pages))
  {
    var t := ReadPages(server, valid, d, "", NOTHING, []);
    if t.Ok? {
      var pages := OnlyWholeCollectionsAreRead(server, valid, d, "", NOTHING, []);
      assert IsAnswer(server, valid, d, pages);
    }
    forall pages | IsAnswer(server, valid, d, pages)
      ensures t.Ok? && IsTop(Assignments(d, AllItems(pages)), Bounded(t.value.unassigned, t.value.revisions))
      ensures t.value.unassigned == CountUnassigned(d, AllItems(pages))
    {
      var all := Assignments(d, AllItems(pages));
      WholeCollectionIsRead(server, valid, d, "", NOTHING, [], pages);
      assert [] + all == all;
      BoundedIsTop(t.value.unassigned, all);
    }
  }

  /** Succeeds exactly for an acceptable collection, and then returns the newest revisions of all its
      ReplicaSets and counts those without a number. */
  method DeploymentRevisionHistory(server: Server, valid: TokenCheck, d: Deployment) returns (r: Result<History>, log: seq<string>)
    ensures |log| <= 4
    ensures r.Ok? <==> exists pages :: IsAnswer(server, valid, d, pages)
    ensures forall pages :: IsAnswer(server, valid, d, pages) ==>
              && r.Ok? && IsTop(Assignments(d, AllItems(pages)), r.value)
              && r.value.unassigned == CountUnassigned(d, AllItems(pages))
  {
    ReadPagesAnswers(server, valid, d);
    r, log := ReadHistory(server, valid, d);
  }

  /** The page loop. */
  method ReadHistory(server: Server, valid: TokenCheck, d: Deployment) returns (r: Result<History>, log: seq<string>)
    ensures |log| <= MAX_PAGES
    ensures var t := ReadPages(server, valid, d, "", NOTHING, []);
            r == if t.Ok? then Ok(Bounded(t.value.unassigned, t.value.revisions)) else Err(t.error)
  {
    var t := NOTHING;
    var token := "";
    log := [];
    for page := 0 to MAX_PAGES
      invariant |log| == t.pages == page
      invariant ReadPages(server, valid, d, "", NOTHING, []) == ReadPages(server, valid, d, token, t, log)
    {
      var remainingBytes := MAX_LIST_BYTES - t.bytes;
      if remainingBytes <= 0 {
        return Err(Upstream), log;
      }
      var pageBytes := Min(remainingBytes, MAX_PAGE_BYTES);
      var answer := server(log + [token]);
      log := log + [token];
      if answer.Err? {
        return Err(answer.error), log;
      }
      var response := answer.value;
      var taken := TakeResponse(d, t, response, pageBytes);
      if taken.Err? {
        return Err(taken.error), log;
      }
      var u := taken.value;
      if response.next == "" {
        return Ok(Bounded(u.unassigned, u.revisions)), log;
      }
      if !valid(response.next) || response.next in t.tokens {
        return Err(Upstream), log;
      }
      t := u.(tokens := t.tokens + {response.next});
      token := response.next;
    }
    r := Err(Upstream);
  }
}
