/** Workloads of internal/kubernetes/client.go: several lists read on one shared budget. */
module WorkloadReader {
  import opened Common
  import opened Sorting
  import opened ListReader
  import FieldOrder
  import StringOrder

  /** What the sort looks at, and the rest of the decoded row. */
  datatype Workload = Workload(namespace: string, kind: string, name: string, rest: string)

  type Decoder = (string, Item) -> Result<Workload>

  const KINDS := ["deployment", "statefulset", "daemonset", "job", "cronjob", "pod"]

  /** The kinds a request asks for, in the order of the reading. */
  function Requested(kinds: seq<string>, kind: string): seq<string> {
    if kinds == [] then []
    else (if kind == "" || kind == kinds[0] then [kinds[0]] else []) + Requested(kinds[1..], kind)
  }

  function DecodeAll(decode: Decoder, kind: string, items: seq<Item>): Result<seq<Workload>> {
    if items == [] then Ok([])
    else match decode(kind, items[0])
      case Err(e) => Err(e)
      case Ok(w) => match DecodeAll(decode, kind, items[1..])
        case Err(e) => Err(e)
        case Ok(rest) => Ok([w] + rest)
  }

  function WithPrefix(ws: seq<Workload>, r: Reading<seq<Workload>>): Reading<seq<Workload>> {
    if r.result.Ok? then r.(result := Ok(ws + r.result.value)) else r
  }

  function ReadKinds(server: Server, paths: string -> string, decode: Decoder, kinds: seq<string>, b: Budget, log: seq<Request>)
    : Reading<seq<Workload>>
    decreases |kinds|
  {
    if kinds == [] then Reading(Ok([]), b, log)
    else
      var r := Read(server, paths(kinds[0]), "", b, log);
      match r.result
      case Err(e) => Reading(Err(e), r.budget, r.log)
      case Ok(items) => match DecodeAll(decode, kinds[0], items)
        case Err(e) => Reading(Err(e), r.budget, r.log)
        case Ok(ws) => WithPrefix(ws, ReadKinds(server, paths, decode, kinds[1..], r.budget, r.log))
  }

  // ---- what a complete answer is ----

  /** `books` holds, kind after kind, the whole list that the server hands out. */
  ghost predicate AreLists(server: Server, paths: string -> string, kinds: seq<string>, log: seq<Request>, books: seq<seq<Page>>)
    decreases |kinds|
  {
    && |books| == |kinds|
    && (kinds != [] ==>
          && IsList(server, paths(kinds[0]), "", log, books[0])
          && AreLists(server, paths, kinds[1..], log + Asked(paths(kinds[0]), "", books[0]), books[1..]))
  }

  function AllPages(books: seq<seq<Page>>): seq<Page> {
    if books == [] then [] else books[0] + AllPages(books[1..])
  }

  /** All items of all lists, decoded by kind. */
  function DecodeBooks(decode: Decoder, kinds: seq<string>, books: seq<seq<Page>>): Result<seq<Workload>>
    requires |books| == |kinds|
    decreases |kinds|
  {
    if kinds == [] then Ok([])
    else match DecodeAll(decode, kinds[0], Items(books[0]))
      case Err(e) => Err(e)
      case Ok(ws) => match DecodeBooks(decode, kinds[1..], books[1..])
        case Err(e) => Err(e)
        case Ok(rest) => Ok(ws + rest)
  }

  lemma ItemsOfFirst(a: seq<Page>, b: seq<Page>)
    requires a != []
    ensures Items(a + b) == a[0].items + Items(a[1..] + b)
  {
    assert (a + b)[1..] == a[1..] + b;
  }

  lemma Regroup(x: seq<Item>, y: seq<Item>, z: seq<Item>)
    ensures x + (y + z) == (x + y) + z
  {
  }

  lemma {:induction false} ItemsAppend(a: seq<Page>, b: seq<Page>)
    ensures Items(a + b) == Items(a) + Items(b)
  {
    if a == [] {
      assert a + b == b;
    } else {
      ItemsAppend(a[1..], b);
      ItemsOfFirst(a, b);
      Regroup(a[0].items, Items(a[1..]), Items(b));
    }
  }

  lemma FitsInTurn(b: Budget, a: seq<Page>, c: seq<Page>)
    requires b.bytes <= MAX_LIST_BYTES
    ensures Fits(b, a + c) <==> Fits(b, a) && Fits(Spend(b, a), c)
    ensures Spend(b, a + c) == Spend(Spend(b, a), c)
    ensures Fits(b, a) ==> Spend(b, a).bytes <= MAX_LIST_BYTES
  {
    ItemsAppend(a, c);
    SizeAppend(Items(a), Items(c));
  }

  /** The shared budget suffices for everything: then everything is returned. */
  lemma {:induction false} AllListsAreRead(
    server: Server, paths: string -> string, decode: Decoder, kinds: seq<string>, b: Budget, log: seq<Request>, books: seq<seq<Page>>)
    requires AreLists(server, paths, kinds, log, books) && Fits(b, AllPages(books)) && DecodeBooks(decode, kinds, books).Ok?
    requires b.bytes <= MAX_LIST_BYTES
    ensures ReadKinds(server, paths, decode, kinds, b, log).result == DecodeBooks(decode, kinds, books)
    decreases |kinds|
  {
    if kinds != [] {
      FitsInTurn(b, books[0], AllPages(books[1..]));
      WholeListIsRead(server, paths(kinds[0]), "", b, log, books[0]);
      AllListsAreRead(server, paths, decode, kinds[1..], Spend(b, books[0]), log + Asked(paths(kinds[0]), "", books[0]), books[1..]);
    }
  }

  /** And nothing else is: a success holds every item of every page of every kind asked for. */
  lemma {:induction false} OnlyAllListsAreRead(
    server: Server, paths: string -> string, decode: Decoder, kinds: seq<string>, b: Budget, log: seq<Request>)
    returns (books: seq<seq<Page>>)
    requires ReadKinds(server, paths, decode, kinds, b, log).result.Ok? && b.bytes <= MAX_LIST_BYTES && b.pages <= MAX_LIST_PAGES
    requires b.items <= MAX_LIST_ITEMS
    ensures AreLists(server, paths, kinds, log, books) && Fits(b, AllPages(books))
    ensures DecodeBooks(decode, kinds, books) == ReadKinds(server, paths, decode, kinds, b, log).result
    decreases |kinds|
  {
    books := [];
    if kinds != [] {
      var book := OnlyWholeListsAreRead(server, paths(kinds[0]), "", b, log);
      WholeListIsRead(server, paths(kinds[0]), "", b, log, book);
      var rest := OnlyAllListsAreRead(server, paths, decode, kinds[1..], Spend(b, book), log + Asked(paths(kinds[0]), "", book));
      books := [book] + rest;
      assert books[1..] == rest;
      FitsInTurn(b, book, AllPages(rest));
    }
  }

  /** The budget bounds the whole call, not each kind: at most 20 requests in all. */
  lemma {:induction false} ReadKindsIsBounded(
    server: Server, paths: string -> string, decode: Decoder, kinds: seq<string>, b: Budget, log: seq<Request>)
    requires b.pages <= MAX_LIST_PAGES && b.items <= MAX_LIST_ITEMS && b.bytes <= MAX_LIST_BYTES
    ensures var r := ReadKinds(server, paths, decode, kinds, b, log);
            && r.budget.pages <= MAX_LIST_PAGES && r.budget.items <= MAX_LIST_ITEMS && r.budget.bytes <= MAX_LIST_BYTES
            && log <= r.log && |r.log| - |log| == r.budget.pages - b.pages
            && (r.result.Ok? ==> |r.result.value| == r.budget.items - b.items)
    decreases |kinds|
  {
    if kinds != [] {
      ReadingIsBounded(server, paths(kinds[0]), "", b, log);
      var r := Read(server, paths(kinds[0]), "", b, log);
      if r.result.Ok? && DecodeAll(decode, kinds[0], r.result.value).Ok? {
        DecodeKeepsCount(decode, kinds[0], r.result.value);
        ReadKindsIsBounded(server, paths, decode, kinds[1..], r.budget, r.log);
      }
    }
  }

  lemma {:induction false} DecodeKeepsCount(decode: Decoder, kind: string, items: seq<Item>)
    requires DecodeAll(decode, kind, items).Ok?
    ensures |DecodeAll(decode, kind, items).value| == |items|
  {
    if items != [] {
      DecodeKeepsCount(decode, kind, items[1..]);
    }
  }

  // ---- the result ----

  function Fields(w: Workload): seq<string> { [w.namespace, w.kind, w.name] }

  predicate Before(a: Workload, b: Workload) { FieldOrder.Less(Fields(a), Fields(b)) }

  lemma BeforeIsStrictOrder(ws: seq<Workload>)
    ensures StrictOrder(Before, ws)
  {
    forall x | x in ws
      ensures !Before(x, x)
    {
      FieldOrder.Irreflexive(Fields(x));
    }
    forall x, y, z | x in ws && y in ws && z in ws && Before(x, y) && Before(y, z)
      ensures Before(x, z)
    {
      FieldOrder.Transitive(Fields(x), Fields(y), Fields(z));
    }
    forall x, y, z | x in ws && y in ws && z in ws && !Before(x, y) && !Before(y, z)
      ensures !Before(x, z)
    {
      FieldOrder.NotLessIsTransitive(Fields(x), Fields(y), Fields(z));
    }
  }

  method DecodeWorkloads(decode: Decoder, kind: string, items: seq<Item>) returns (r: Result<seq<Workload>>)
    ensures r == DecodeAll(decode, kind, items)
  {
    var ws: seq<Workload> := [];
    ghost var whole := DecodeAll(decode, kind, items);
    assert items[0..] == items && (whole.Ok? ==> [] + whole.value == whole.value);
    for i := 0 to |items|
      invariant var rest := DecodeAll(decode, kind, items[i..]);
                whole == if rest.Ok? then Ok(ws + rest.value) else rest
    {
      assert items[i..][1..] == items[i + 1..];
      var w := decode(kind, items[i]);
      if w.Err? {
        return Err(w.error);
      }
      ghost var rest := DecodeAll(decode, kind, items[i + 1..]);
      assert rest.Ok? ==> ws + ([w.value] + rest.value) == ws + [w.value] + rest.value;
      ws := ws + [w.value];
    }
    assert ws + [] == ws;
    r := Ok(ws);
  }

  /** The loop over the kinds. */
  method ReadInTurn(server: Server, paths: string -> string, decode: Decoder, kinds: seq<string>, kind: string)
    returns (r: Result<seq<Workload>>, asked: seq<Request>)
    ensures var whole := ReadKinds(server, paths, decode, Requested(kinds, kind), Budget(0, 0, 0), []);
            r == whole.result && asked == whole.log
  {
    var budget := new ListBudget();
    var ws: seq<Workload> := [];
    asked := [];
    ghost var whole := ReadKinds(server, paths, decode, Requested(kinds, kind), Budget(0, 0, 0), []);
    assert kinds[0..] == kinds;
    PrefixInTurn([], [], whole);
    for i := 0 to |kinds|
      invariant fresh(budget)
      invariant whole == WithPrefix(ws, ReadKinds(server, paths, decode, Requested(kinds[i..], kind), budget.View(), asked))
    {
      ghost var now, later := Requested(kinds[i..], kind), Requested(kinds[i + 1..], kind);
      assert kinds[i..][1..] == kinds[i + 1..];
      if kind != "" && kind != kinds[i] {
        assert now == later;
        continue;
      }
      assert now == [kinds[i]] + later && now[1..] == later;
      var items;
      items, asked := ListRawWithBudget(server, paths(kinds[i]), budget, asked);
      if items.Err? {
        return Err(items.error), asked;
      }
      var decoded := DecodeWorkloads(decode, kinds[i], items.value);
      if decoded.Err? {
        return Err(decoded.error), asked;
      }
      PrefixInTurn(ws, decoded.value, ReadKinds(server, paths, decode, later, budget.View(), asked));
      ws := ws + decoded.value;
    }
    assert ws + [] == ws;
    r := Ok(ws);
  }

  /** `books` are the whole lists of the kinds, fit one budget, and decode. */
  ghost predicate IsAnswer(server: Server, paths: string -> string, decode: Decoder, kinds: seq<string>, books: seq<seq<Page>>) {
    && AreLists(server, paths, kinds, [], books) && Fits(Budget(0, 0, 0), AllPages(books))
    && DecodeBooks(decode, kinds, books).Ok?
  }

  lemma ReadKindsAnswers(server: Server, paths: string -> string, decode: Decoder, kinds: seq<string>)
    ensures var r := ReadKinds(server, paths, decode, kinds, Budget(0, 0, 0), []).result;
            && (r.Ok? <==> exists books :: IsAnswer(server, paths, decode, kinds, books))
            && forall books :: IsAnswer(server, paths, decode, kinds, books) ==> r == DecodeBooks(decode, kinds, books)
  {
    var r := ReadKinds(server, paths, decode, kinds, Budget(0, 0, 0), []).result;
    if r.Ok? {
      var books := OnlyAllListsAreRead(server, paths, decode, kinds, Budget(0, 0, 0), []);
      assert IsAnswer(server, paths, decode, kinds, books);
    }
    forall books | IsAnswer(server, paths, decode, kinds, books)
      ensures r == DecodeBooks(decode, kinds, books)
    {
      AllListsAreRead(server, paths, decode, kinds, Budget(0, 0, 0), [], books);
    }
  }

  lemma KindsDiffer()
    ensures Distinct(KINDS)
  {
    var sizes := [10, 11, 9, 3, 7, 3];
    assert forall i :: 0 <= i < 6 ==> |KINDS[i]| == sizes[i];
    assert KINDS[3][0] == 'j' && KINDS[5][0] == 'p';
  }

  /** Every kind without a filter, in this order; the one kind asked for; nothing for an unknown kind. */
  lemma RequestedKinds(kind: string)
    ensures Requested(KINDS, "") == ["deployment", "statefulset", "daemonset", "job", "cronjob", "pod"]
    ensures kind != "" ==>
              Requested(KINDS, kind)
              == if kind in ["deployment", "statefulset", "daemonset", "job", "cronjob", "pod"] then [kind] else []
  {
    RequestedAll(KINDS);
    if kind != "" {
      KindsDiffer();
      RequestedOne(KINDS, kind);
    }
  }

  lemma {:induction false} RequestedAll(kinds: seq<string>)
    ensures Requested(kinds, "") == kinds
  {
    if kinds != [] { RequestedAll(kinds[1..]); }
  }

  lemma {:induction false} RequestedOne(kinds: seq<string>, kind: string)
    requires Distinct(kinds) && kind != ""
    ensures Requested(kinds, kind) == if kind in kinds then [kind] else []
  {
    if kinds != [] {
      RequestedOne(kinds[1..], kind);
      assert kinds[0] !in kinds[1..];
    }
  }

  /** Item by item: the rows of a list are its decoded items, in order. */
  lemma {:induction false} DecodedInOrder(decode: Decoder, kind: string, items: seq<Item>)
    ensures DecodeAll(decode, kind, items).Ok? <==> forall i :: 0 <= i < |items| ==> decode(kind, items[i]).Ok?
    ensures var r := DecodeAll(decode, kind, items);
            r.Ok? ==> |r.value| == |items| && forall i :: 0 <= i < |items| ==> decode(kind, items[i]) == Ok(r.value[i])
  {
    if items != [] {
      DecodedInOrder(decode, kind, items[1..]);
      assert forall i :: 0 < i < |items| ==> items[i] == items[1..][i - 1];
      if forall i :: 0 <= i < |items| ==> decode(kind, items[i]).Ok? {
        forall i | 0 <= i < |items[1..]|
          ensures decode(kind, items[1..][i]).Ok?
        {
          assert decode(kind, items[i + 1]).Ok?;
        }
      }
    }
  }

  /** The limits that all lists together must keep. */
  lemma FitsIff(books: seq<seq<Page>>)
    ensures Fits(Budget(0, 0, 0), AllPages(books))
            <==> |AllPages(books)| <= 20 && |Items(AllPages(books))| <= 5000
                 && (Items(AllPages(books)) != [] ==> Size(Items(AllPages(books))) <= 32 * 1024 * 1024)
  {
  }

  /** By namespace, then kind, then name, as bytes. */
  predicate InOrder(a: Workload, b: Workload) {
    if a.namespace != b.namespace then StringOrder.Less(a.namespace, b.namespace)
    else if a.kind != b.kind then StringOrder.Less(a.kind, b.kind)
    else a.name == b.name || StringOrder.Less(a.name, b.name)
  }

  /** What comes first is smaller field by field. */
  lemma NotBeforeIsInOrder(a: Workload, b: Workload)
    requires !Before(b, a)
    ensures InOrder(a, b)
  {
    var x, y := Fields(a), Fields(b);
    assert y == [b.namespace] + [b.kind, b.name] && x == [a.namespace] + [a.kind, a.name];
    FieldOrder.FromField(b.namespace, [b.kind, b.name], a.namespace, [a.kind, a.name]);
    if a.namespace == b.namespace {
      assert [b.kind, b.name] == [b.kind] + [b.name] && [a.kind, a.name] == [a.kind] + [a.name];
      FieldOrder.FromField(b.kind, [b.name], a.kind, [a.name]);
      if a.kind == b.kind {
        assert [b.name] == [b.name] + [] && [a.name] == [a.name] + [];
        FieldOrder.FromField(b.name, [], a.name, []);
      }
    }
    StringOrder.Trichotomy(a.namespace, b.namespace);
    StringOrder.Trichotomy(a.kind, b.kind);
    StringOrder.Trichotomy(a.name, b.name);
  }

  /** Succeeds exactly if the lists of the kinds asked for fit one budget and decode, and then returns
      all their workloads, sorted. */
  method Workloads(server: Server, paths: string -> string, decode: Decoder, kind: string)
    returns (r: Result<seq<Workload>>, asked: seq<Request>)
    ensures |asked| <= 20
    ensures r.Ok? <==> exists books :: IsAnswer(server, paths, decode, Requested(KINDS, kind), books)
    ensures forall books :: IsAnswer(server, paths, decode, Requested(KINDS, kind), books) ==>
              r.Ok? && multiset(r.value) == multiset(DecodeBooks(decode, Requested(KINDS, kind), books).value)
    ensures r.Ok? ==> |r.value| <= 5000 && forall i, j :: 0 <= i < j < |r.value| ==> InOrder(r.value[i], r.value[j])
  {
    ReadKindsAnswers(server, paths, decode, Requested(KINDS, kind));
    ReadKindsIsBounded(server, paths, decode, Requested(KINDS, kind), Budget(0, 0, 0), []);
    r, asked := ReadInTurn(server, paths, decode, KINDS, kind);
    if r.Ok? {
      ghost var sorted := Sort(Before, r.value);
      BeforeIsStrictOrder(r.value);
      SortSorts(Before, r.value);
      SortIsPermutation(Before, r.value);
      forall i, j | 0 <= i < j < |sorted|
        ensures InOrder(sorted[i], sorted[j])
      {
        NotBeforeIsInOrder(sorted[i], sorted[j]);
      }
      r := Ok(Sort(Before, r.value));
    }
  }

  lemma PrefixInTurn(a: seq<Workload>, b: seq<Workload>, r: Reading<seq<Workload>>)
    ensures WithPrefix(a, WithPrefix(b, r)) == WithPrefix(a + b, r) && WithPrefix([], r) == r
  {
    if r.result.Ok? {
      assert a + (b + r.result.value) == a + b + r.result.value && [] + r.result.value == r.result.value;
    }
  }
}
