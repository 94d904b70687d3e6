/** The bounded list reader of internal/kubernetes/client.go against an arbitrary server. */
module ListReader {
  import opened Common

  const MAX_LIST_ITEMS := 5000
  const MAX_LIST_PAGES := 20
  const MAX_LIST_BYTES := 32 * 1024 * 1024

  /** A raw item, one character per byte. */
  type Item = string

  datatype Page = Page(items: seq<Item>, next: string)

  datatype Request = Request(path: string, token: string)

  /** What a server answers may depend on every request it has seen; the last one is the current. */
  type Server = seq<Request> -> Result<Page>

  datatype Budget = Budget(items: nat, pages: nat, bytes: nat)

  function Size(items: seq<Item>): nat {
    if items == [] then 0 else |items[0]| + Size(items[1..])
  }

  lemma {:induction false} SizeAppend(a: seq<Item>, b: seq<Item>)
    ensures Size(a + b) == Size(a) + Size(b)
  {
    if a == [] {
      assert a + b == b;
    } else {
      SizeAppend(a[1..], b);
      assert (a + b)[1..] == a[1..] + b;
    }
  }

  lemma SizeSplits(items: seq<Item>, k: nat)
    requires k <= |items|
    ensures Size(items) == Size(items[..k]) + Size(items[k..])
  {
    SizeAppend(items[..k], items[k..]);
    assert items[..k] + items[k..] == items;
  }

  predicate Affordable(b: Budget, page: seq<Item>) {
    b.items + |page| <= MAX_LIST_ITEMS && (page == [] || b.bytes + Size(page) <= MAX_LIST_BYTES)
  }

  /** The budget after taking a page. */
  function Paid(b: Budget, page: Page): Budget { Budget(b.items + |page.items|, b.pages + 1, b.bytes + Size(page.items)) }

  // ---- reading one list ----

  datatype Reading<T> = Reading(result: Result<T>, budget: Budget, log: seq<Request>)

  /** Follows the continue tokens until the list ends, the server fails, or the budget is spent. */
  function Read(server: Server, path: string, token: string, b: Budget, log: seq<Request>): Reading<seq<Item>>
    decreases MAX_LIST_PAGES - b.pages
  {
    if b.pages >= MAX_LIST_PAGES then Reading(Err(Upstream), b, log)
    else
      var asked := log + [Request(path, token)];
      var paid := b.(pages := b.pages + 1);
      match server(asked)
      case Err(e) => Reading(Err(e), paid, asked)
      case Ok(page) =>
        if !Affordable(b, page.items) then Reading(Err(Upstream), paid, asked)
        else
          var spent := Paid(b, page);
          if page.next == "" then Reading(Ok(page.items), spent, asked)
          else Prefixed(page.items, Read(server, path, page.next, spent, asked))
  }

  function Prefixed(items: seq<Item>, r: Reading<seq<Item>>): Reading<seq<Item>> {
    if r.result.Ok? then r.(result := Ok(items + r.result.value)) else r
  }

  lemma PrefixedTwice(a: seq<Item>, b: seq<Item>, r: Reading<seq<Item>>)
    ensures Prefixed(a, Prefixed(b, r)) == Prefixed(a + b, r) && Prefixed([], r) == r
  {
    if r.result.Ok? {
      assert a + (b + r.result.value) == a + b + r.result.value && [] + r.result.value == r.result.value;
    }
  }

  // ---- what a complete answer is ----

  /** `pages` is the whole list at `path`, as the server hands it out from here. */
  predicate IsList(server: Server, path: string, token: string, log: seq<Request>, pages: seq<Page>)
    decreases |pages|
  {
    && pages != []
    && var asked := log + [Request(path, token)];
       && server(asked) == Ok(pages[0])
       && if pages[0].next == "" then |pages| == 1 else IsList(server, path, pages[0].next, asked, pages[1..])
  }

  function Items(pages: seq<Page>): seq<Item> {
    if pages == [] then [] else pages[0].items + Items(pages[1..])
  }

  function Asked(path: string, token: string, pages: seq<Page>): seq<Request>
    decreases |pages|
  {
    if pages == [] then [] else [Request(path, token)] + Asked(path, pages[0].next, pages[1..])
  }

  /** Within the budget as a whole. */
  predicate Fits(b: Budget, pages: seq<Page>) {
    b.pages + |pages| <= MAX_LIST_PAGES && b.items + |Items(pages)| <= MAX_LIST_ITEMS
    && (Items(pages) == [] || b.bytes + Size(Items(pages)) <= MAX_LIST_BYTES)
  }

  function Spend(b: Budget, pages: seq<Page>): Budget {
    Budget(b.items + |Items(pages)|, b.pages + |pages|, b.bytes + Size(Items(pages)))
  }

  lemma FitsSplits(b: Budget, pages: seq<Page>)
    requires pages != [] && b.bytes <= MAX_LIST_BYTES
    ensures Fits(b, pages) <==> b.pages < MAX_LIST_PAGES && Affordable(b, pages[0].items) && Fits(Paid(b, pages[0]), pages[1..])
    ensures Spend(b, pages) == Spend(Paid(b, pages[0]), pages[1..])
  {
    SizeAppend(pages[0].items, Items(pages[1..]));
  }

  /** The reading that returns all of `pages`. */
  function Whole(path: string, token: string, b: Budget, log: seq<Request>, pages: seq<Page>): Reading<seq<Item>> {
    Reading(Ok(Items(pages)), Spend(b, pages), log + Asked(path, token, pages))
  }

  /** What a first page adds to the rest of the list. */
  lemma WholeGrows(path: string, token: string, b: Budget, log: seq<Request>, page: Page, rest: seq<Page>)
    ensures Whole(path, token, b, log, [page] + rest)
            == Prefixed(page.items, Whole(path, page.next, Paid(b, page), log + [Request(path, token)], rest))
  {
    var pages, first := [page] + rest, [Request(path, token)];
    assert pages[1..] == rest;
    SizeAppend(page.items, Items(rest));
    assert log + (first + Asked(path, page.next, rest)) == log + first + Asked(path, page.next, rest);
  }

  lemma WholeOfLast(path: string, token: string, b: Budget, log: seq<Request>, page: Page)
    ensures Whole(path, token, b, log, [page]) == Reading(Ok(page.items), Paid(b, page), log + [Request(path, token)])
  {
    assert [page][1..] == [] && Items([]) == [] && page.items + [] == page.items;
    assert Items([page]) == page.items;
    assert Asked(path, token, [page]) == [Request(path, token)] + Asked(path, page.next, []) == [Request(path, token)];
  }

  /** The reader after a first page that it takes. */
  lemma ReadTakes(server: Server, path: string, token: string, b: Budget, log: seq<Request>, page: Page)
    requires b.pages < MAX_LIST_PAGES && server(log + [Request(path, token)]) == Ok(page) && Affordable(b, page.items)
    ensures var asked := log + [Request(path, token)];
            Read(server, path, token, b, log)
            == if page.next == "" then Reading(Ok(page.items), Paid(b, page), asked)
               else Prefixed(page.items, Read(server, path, page.next, Paid(b, page), asked))
  {
  }

  /** No silent truncation: a list that fits is returned whole, page after page in order. */
  lemma {:induction false} WholeListIsRead(server: Server, path: string, token: string, b: Budget, log: seq<Request>, pages: seq<Page>)
    requires IsList(server, path, token, log, pages) && Fits(b, pages) && b.bytes <= MAX_LIST_BYTES
    ensures Read(server, path, token, b, log) == Whole(path, token, b, log, pages)
    decreases |pages|
  {
    var page, rest := pages[0], pages[1..];
    FitsSplits(b, pages);
    assert pages == [page] + rest;
    ReadTakes(server, path, token, b, log, page);
    if page.next == "" {
      assert pages == [page];
      WholeOfLast(path, token, b, log, page);
    } else {
      WholeListIsRead(server, path, page.next, Paid(b, page), log + [Request(path, token)], rest);
      WholeGrows(path, token, b, log, page, rest);
    }
  }

  /** Nothing else is ever returned: a success is such a list. */
  lemma {:induction false} OnlyWholeListsAreRead(server: Server, path: string, token: string, b: Budget, log: seq<Request>)
    returns (pages: seq<Page>)
    requires Read(server, path, token, b, log).result.Ok? && b.bytes <= MAX_LIST_BYTES
    ensures IsList(server, path, token, log, pages) && Fits(b, pages)
    decreases MAX_LIST_PAGES - b.pages
  {
    var asked := log + [Request(path, token)];
    var page := server(asked).value;
    var spent := Paid(b, page);
    var rest := [];
    if page.next != "" {
      rest := OnlyWholeListsAreRead(server, path, page.next, spent, asked);
    }
    pages := [page] + rest;
    assert pages[1..] == rest;
    FitsSplits(b, pages);
  }

  /** Whatever the server does, the budget bounds the requests, the items and the bytes. */
  lemma {:induction false} ReadingIsBounded(server: Server, path: string, token: string, b: Budget, log: seq<Request>)
    requires b.pages <= MAX_LIST_PAGES && b.items <= MAX_LIST_ITEMS && b.bytes <= MAX_LIST_BYTES
    ensures var r := Read(server, path, token, b, log);
            && b.pages <= r.budget.pages <= MAX_LIST_PAGES && r.budget.items <= MAX_LIST_ITEMS && r.budget.bytes <= MAX_LIST_BYTES
            && log <= r.log && |r.log| - |log| == r.budget.pages - b.pages
            && (r.result.Ok? ==> r.budget.items == b.items + |r.result.value| && r.budget.bytes == b.bytes + Size(r.result.value))
    decreases MAX_LIST_PAGES - b.pages
  {
    if b.pages < MAX_LIST_PAGES {
      var asked := log + [Request(path, token)];
      var answer := server(asked);
      if answer.Ok? && Affordable(b, answer.value.items) && answer.value.next != "" {
        var spent := Paid(b, answer.value);
        ReadingIsBounded(server, path, answer.value.next, spent, asked);
        var rest := Read(server, path, answer.value.next, spent, asked);
        if rest.result.Ok? {
          SizeAppend(answer.value.items, rest.result.value);
        }
      }
    }
  }

  // ---- the loops ----

  class ListBudget {
    var items: nat
    var pages: nat
    var bytes: nat

    ghost function View(): Budget
      reads this
    {
      Budget(items, pages, bytes)
    }

    constructor ()
      ensures View() == Budget(0, 0, 0)
    {
      items, pages, bytes := 0, 0, 0;
    }
  }

  method AppendListItemsWithBudget(items: seq<Item>, page: seq<Item>, budget: ListBudget) returns (r: Result<seq<Item>>)
    modifies budget
    ensures r == if Affordable(old(budget.View()), page) then Ok(items + page) else Err(Upstream)
    ensures budget.View() == if r.Err? then old(budget.View())
                             else Budget(old(budget.items) + |page|, old(budget.pages), old(budget.bytes) + Size(page))
  {
    if |page| > MAX_LIST_ITEMS - budget.items {
      return Err(Upstream);
    }
    var pageBytes := 0;
    for i := 0 to |page|
      invariant budget.View() == old(budget.View())
      invariant pageBytes == Size(page[..i]) && (i > 0 ==> budget.bytes + pageBytes <= MAX_LIST_BYTES)
    {
      assert Size([page[i]]) == |page[i]|;
      SizeAppend(page[..i], [page[i]]);
      SizeSplits(page, i + 1);
      assert page[..i + 1] == page[..i] + [page[i]];
      assert pageBytes + |page[i]| == Size(page[..i + 1]) <= Size(page);
      if |page[i]| > MAX_LIST_BYTES - budget.bytes - pageBytes {
        return Err(Upstream);
      }
      pageBytes := pageBytes + |page[i]|;
    }
    assert page[..|page|] == page;
    budget.items := budget.items + |page|;
    budget.bytes := budget.bytes + pageBytes;
    return Ok(items + page);
  }

  /** The server's log is threaded through; nothing else is shared between calls. */
  method ListRawWithBudget(server: Server, path: string, budget: ListBudget, log: seq<Request>)
    returns (r: Result<seq<Item>>, asked: seq<Request>)
    modifies budget
    ensures Reading(r, budget.View(), asked) == Read(server, path, "", old(budget.View()), log)
  {
    var items: seq<Item> := [];
    var token := "";
    asked := log;
    ghost var whole := Read(server, path, "", budget.View(), log);
    PrefixedTwice([], [], whole);
    while true
      invariant whole == Prefixed(items, Read(server, path, token, budget.View(), asked))
      decreases MAX_LIST_PAGES - budget.pages
    {
      if budget.pages >= MAX_LIST_PAGES {
        return Err(Upstream), asked;
      }
      ghost var sofar, rest := items, Read(server, path, token, budget.View(), asked);
      budget.pages := budget.pages + 1;
      asked := asked + [Request(path, token)];
      var answer := server(asked);
      if answer.Err? {
        return Err(answer.error), asked;
      }
      var appended := AppendListItemsWithBudget(items, answer.value.items, budget);
      if appended.Err? {
        return Err(appended.error), asked;
      }
      items := appended.value;
      if answer.value.next == "" {
        return Ok(items), asked;
      }
      token := answer.value.next;
      assert rest == Prefixed(answer.value.items, Read(server, path, token, budget.View(), asked));
      PrefixedTwice(sofar, answer.value.items, Read(server, path, token, budget.View(), asked));
    }
  }
}
