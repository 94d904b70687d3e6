/** Which ReplicaSets a Deployment's revision history lists, and which collections it accepts, in terms of
    what the server hands out. */
module DeploymentAnswers {
  import opened Common
  import opened Decimal
  import opened DeploymentRevisions
  import opened DeploymentHistory

  // ---- one ReplicaSet ----

  predicate Controls(o: Owner) { o.controller == Some(true) }

  /** The owner at `k` is the only controller. */
  predicate OnlyController(owners: seq<Owner>, k: int) {
    0 <= k < |owners| && Controls(owners[k]) && forall i :: 0 <= i < |owners| && Controls(owners[i]) ==> i == k
  }

  predicate IsThis(d: Deployment, o: Owner) {
    o.apiVersion == "apps/v1" && o.kind == "Deployment" && o.name == d.name && o.uid == d.uid
  }

  /** The Deployment, by name and UID, is the one controller of the ReplicaSet. */
  ghost predicate Belongs(d: Deployment, rs: ReplicaSet) {
    exists k :: OnlyController(rs.owners, k) && IsThis(d, rs.owners[k])
  }

  /** Its metadata is in order: at most one controller, and that well formed. */
  predicate InOrder(rs: ReplicaSet) {
    && rs.wellFormed
    && OneAtMost(rs.owners)
    && forall i :: 0 <= i < |rs.owners| && Controls(rs.owners[i]) ==> rs.owners[i].wellFormed
  }

  /** Its annotation is the numeral of a revision. */
  ghost predicate Annotated(rs: ReplicaSet, n: int) { 1 <= n <= 0x7fff_ffff && rs.annotation == Some(Format(n)) }

  lemma {:induction false} ControllersAre(owners: seq<Owner>)
    ensures forall o :: o in Controllers(owners) <==> o in owners && Controls(o)
  {
    if owners != [] {
      ControllersAre(owners[1..]);
      assert owners == [owners[0]] + owners[1..];
    }
  }

  /** Not more than one controller, told by places. */
  predicate OneAtMost(owners: seq<Owner>) {
    forall i, j :: 0 <= i < j < |owners| ==> !Controls(owners[i]) || !Controls(owners[j])
  }

  lemma NoneInRest(rest: seq<Owner>)
    requires Controllers(rest) == []
    ensures forall i :: 0 <= i < |rest| ==> !Controls(rest[i])
  {
    ControllersAre(rest);
    forall i | 0 <= i < |rest|
      ensures !Controls(rest[i])
    {
      assert rest[i] in rest;
    }
  }

  lemma {:induction false} ControllersAreCounted(owners: seq<Owner>)
    ensures |Controllers(owners)| <= 1 <==> OneAtMost(owners)
  {
    if owners != [] {
      var rest := owners[1..];
      ControllersAreCounted(rest);
      if Controllers(rest) == [] {
        NoneInRest(rest);
        assert forall i :: 0 < i < |owners| ==> owners[i] == rest[i - 1];
      } else if Controls(owners[0]) {
        ControllersAre(rest);
        assert Controllers(rest)[0] in rest;
        var i :| 0 <= i < |rest| && rest[i] == Controllers(rest)[0];
        assert Controls(owners[0]) && Controls(owners[i + 1]);
      } else if OneAtMost(rest) {
        assert forall i :: 0 < i < |owners| ==> owners[i] == rest[i - 1];
      } else {
        var i, j :| 0 <= i < j < |rest| && Controls(rest[i]) && Controls(rest[j]);
        assert Controls(owners[i + 1]) && Controls(owners[j + 1]);
      }
    }
  }

  lemma NoController(owners: seq<Owner>)
    requires Controllers(owners) == []
    ensures forall k :: !OnlyController(owners, k)
  {
    NoneInRest(owners);
  }

  lemma SoleControllerIsAt(owners: seq<Owner>) returns (k: int)
    requires |Controllers(owners)| == 1
    ensures OnlyController(owners, k) && Controllers(owners) == [owners[k]]
  {
    ControllersAre(owners);
    ControllersAreCounted(owners);
    var c := Controllers(owners)[0];
    assert c in Controllers(owners);
    k :| 0 <= k < |owners| && owners[k] == c;
    assert forall i :: 0 <= i < |owners| && Controls(owners[i]) ==> i == k;
  }

  lemma AnnotationIsNumeral(rs: ReplicaSet, n: int)
    requires rs.annotation.Some?
    ensures Annotated(rs, n) <==> DeploymentRevisions.Canonical(rs.annotation.value) == Ok(n)
  {
    if DeploymentRevisions.Canonical(rs.annotation.value) == Ok(n) {
      AcceptedIsFormatted(rs.annotation.value);
    } else if Annotated(rs, n) {
      CanonicalRoundTrip(n);
    }
  }

  lemma ControllerDecides(d: Deployment, rs: ReplicaSet)
    requires InOrder(rs)
    ensures |Controllers(rs.owners)| <= 1 && (|Controllers(rs.owners)| == 1 ==> Controllers(rs.owners)[0].wellFormed)
    ensures Belongs(d, rs) <==> Controllers(rs.owners) != [] && Owns(d, Controllers(rs.owners)[0])
  {
    ControllersAre(rs.owners);
    ControllersAreCounted(rs.owners);
    if Controllers(rs.owners) == [] {
      NoController(rs.owners);
    } else {
      var k := SoleControllerIsAt(rs.owners);
      forall j | OnlyController(rs.owners, j)
        ensures j == k
      {
      }
    }
  }

  lemma OutOfOrder(d: Deployment, rs: ReplicaSet)
    requires !InOrder(rs)
    ensures Judge(d, rs) == Err(Upstream)
  {
    ControllersAre(rs.owners);
    ControllersAreCounted(rs.owners);
    if rs.wellFormed && |Controllers(rs.owners)| <= 1 {
      var i :| 0 <= i < |rs.owners| && Controls(rs.owners[i]) && !rs.owners[i].wellFormed;
      assert rs.owners[i] in Controllers(rs.owners);
    }
  }

  /** A ReplicaSet is an unnumbered revision of the Deployment exactly if the Deployment, by its name and
      its UID, is the one controller and there is no annotation; it is revision n exactly if the annotation
      is the numeral of n, and carries its own name and creation time. One that belongs to nobody or to
      another Deployment, say a deleted one of the same name, is foreign. Anything else is an error. */
  lemma BelongingIsExact(d: Deployment, rs: ReplicaSet)
    ensures Judge(d, rs) == Ok(Foreign) <==> InOrder(rs) && !Belongs(d, rs)
    ensures Judge(d, rs) == Ok(Unassigned) <==> InOrder(rs) && Belongs(d, rs) && rs.annotation.None?
    ensures forall r :: Judge(d, rs) == Ok(Assigned(r)) <==>
              && InOrder(rs) && Belongs(d, rs) && Annotated(rs, r.revision)
              && r.replicaSet == rs.name && r.createdAt == rs.createdAt
              && (r.current <==> d.current > 0 && r.revision == d.current)
  {
    if !InOrder(rs) {
      OutOfOrder(d, rs);
    } else {
      ControllerDecides(d, rs);
      if rs.annotation.Some? {
        forall n { AnnotationIsNumeral(rs, n); }
      }
    }
  }

  // ---- all ReplicaSets ----

  lemma UnassignedOfOne(d: Deployment, rs: ReplicaSet)
    ensures CountUnassigned(d, [rs]) == if Judge(d, rs) == Ok(Unassigned) then 1 else 0
  {
    assert CountUnassigned(d, [rs][1..]) == 0;
  }

  /** The history counts every ReplicaSet without a number. */
  lemma {:induction false} UnassignedAreCounted(d: Deployment, items: seq<ReplicaSet>)
    ensures CountUnassigned(d, items) == |Places(rs => Judge(d, rs) == Ok(Unassigned), items)|
  {
    var unassigned := rs => Judge(d, rs) == Ok(Unassigned);
    if items == [] {
      assert Places(unassigned, items) == {};
    } else {
      var init, last := items[..|items| - 1], items[|items| - 1];
      assert items == init + [last];
      UnassignedAreCounted(d, init);
      AssignmentsAppend(d, init, [last]);
      UnassignedOfOne(d, last);
      PlacesGrow(unassigned, init, last);
    }
  }

  /** And it lists a revision exactly if a ReplicaSet carries it. */
  lemma {:induction false} AssignedAreListed(d: Deployment, items: seq<ReplicaSet>, r: Revision)
    ensures r in Assignments(d, items) <==> exists i :: 0 <= i < |items| && Judge(d, items[i]) == Ok(Assigned(r))
  {
    if items != [] {
      var rest := items[1..];
      AssignedAreListed(d, rest, r);
      assert forall i :: 0 < i < |items| ==> items[i] == rest[i - 1];
      if r in First(d, items[0]) {
        assert Judge(d, items[0]) == Ok(Assigned(r));
      } else if i :| 0 <= i < |rest| && Judge(d, rest[i]) == Ok(Assigned(r)) {
        assert Judge(d, items[i + 1]) == Ok(Assigned(r));
      }
    }
  }

  // ---- the collection ----

  function Bytes(pages: seq<Page>): nat { if pages == [] then 0 else pages[0].bytes + Bytes(pages[1..]) }

  /** The page at `k` is within the limits of a page and of what came before it. */
  predicate PageFits(bytes: nat, pages: seq<Page>, k: nat)
    requires k < |pages|
  {
    && pages[k].wellFormed && pages[k].bytes <= 2 * 1024 * 1024
    && bytes + Bytes(pages[..k]) < 4 * 1024 * 1024 && bytes + Bytes(pages[..k]) + pages[k].bytes <= 4 * 1024 * 1024
  }

  lemma PageShifts(bytes: nat, pages: seq<Page>, k: nat)
    requires 0 < k < |pages|
    ensures PageFits(bytes, pages, k) <==> PageFits(bytes + pages[0].bytes, pages[1..], k - 1)
  {
    assert pages[..k][1..] == pages[1..][..k - 1] && pages[..k][0] == pages[0];
  }

  lemma {:induction false} PacedIff(bytes: nat, pages: seq<Page>)
    ensures Paced(bytes, pages) <==> forall k :: 0 <= k < |pages| ==> PageFits(bytes, pages, k)
    decreases |pages|
  {
    if pages != [] {
      var rest, more := pages[1..], bytes + pages[0].bytes;
      PacedIff(more, rest);
      assert pages[..0] == [];
      if forall k :: 0 <= k < |pages| ==> PageFits(bytes, pages, k) {
        assert PageFits(bytes, pages, 0);
        forall j | 0 <= j < |rest|
          ensures PageFits(more, rest, j)
        {
          PageShifts(bytes, pages, j + 1);
        }
      } else {
        var k :| 0 <= k < |pages| && !PageFits(bytes, pages, k);
        if k > 0 { PageShifts(bytes, pages, k); }
      }
    }
  }

  predicate TokenFits(valid: TokenCheck, seen: set<string>, pages: seq<Page>, k: nat)
    requires k < |pages|
  {
    valid(pages[k].next) && pages[k].next !in seen && forall j :: 0 <= j < k ==> pages[j].next != pages[k].next
  }

  lemma TokenShifts(valid: TokenCheck, seen: set<string>, pages: seq<Page>, k: nat)
    requires 0 < k < |pages|
    ensures TokenFits(valid, seen, pages, k) <==> TokenFits(valid, seen + {pages[0].next}, pages[1..], k - 1)
  {
    var rest := pages[1..];
    forall j | 0 <= j < k - 1
      ensures rest[j].next == pages[j + 1].next
    {
    }
    if TokenFits(valid, seen + {pages[0].next}, rest, k - 1) {
      forall j | 0 <= j < k
        ensures pages[j].next != pages[k].next
      {
        assert j > 0 ==> rest[j - 1].next != rest[k - 1].next;
      }
    }
  }

  lemma {:induction false} LinkedIff(valid: TokenCheck, seen: set<string>, pages: seq<Page>)
    ensures Linked(valid, seen, pages) <==> forall k :: 0 <= k < |pages| - 1 ==> TokenFits(valid, seen, pages, k)
    decreases |pages|
  {
    if |pages| > 1 {
      var rest, more := pages[1..], seen + {pages[0].next};
      LinkedIff(valid, more, rest);
      if forall k :: 0 <= k < |pages| - 1 ==> TokenFits(valid, seen, pages, k) {
        assert TokenFits(valid, seen, pages, 0);
        forall j | 0 <= j < |rest| - 1
          ensures TokenFits(valid, more, rest, j)
        {
          TokenShifts(valid, seen, pages, j + 1);
        }
      } else {
        var k :| 0 <= k < |pages| - 1 && !TokenFits(valid, seen, pages, k);
        if k > 0 { TokenShifts(valid, seen, pages, k); }
      }
    }
  }

  /** A collection is accepted exactly if it has at most 4 pages of at most 2 MiB, 4 MiB in all, with
      different legal tokens between them, and at most 1000 ReplicaSets, all in order and without two of
      one revision number. */
  lemma AcceptableIff(valid: TokenCheck, d: Deployment, pages: seq<Page>)
    ensures Acceptable(valid, d, NOTHING, pages) <==>
              && |pages| <= 4 && (forall k :: 0 <= k < |pages| ==> PageFits(0, pages, k))
              && (forall k :: 0 <= k < |pages| - 1 ==> TokenFits(valid, {}, pages, k))
              && |AllItems(pages)| <= 1000 && AllJudged(d, AllItems(pages)) && DistinctNumbers(Assignments(d, AllItems(pages)))
  {
    PacedIff(0, pages);
    LinkedIff(valid, {}, pages);
    assert [] + Assignments(d, AllItems(pages)) == Assignments(d, AllItems(pages));
  }

  /** The ReplicaSets of a collection are those of its pages. */
  lemma {:induction false} ItemsAreOfPages(pages: seq<Page>, rs: ReplicaSet)
    ensures rs in AllItems(pages) <==> exists k :: 0 <= k < |pages| && rs in pages[k].items
  {
    if pages != [] {
      var rest := pages[1..];
      ItemsAreOfPages(rest, rs);
      if k :| 0 <= k < |rest| && rs in rest[k].items {
        assert rs in pages[k + 1].items;
      }
      assert forall k :: 0 < k < |pages| ==> pages[k] == rest[k - 1];
    }
  }
}
