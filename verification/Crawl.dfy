/** The bounded breadth-first crawl of the official documents: every address is requested at
    most once, at its shortest link distance, and only the budgets cut the search short. */
module Crawl {
  import opened Text

  const MAX_PAGES := 4
  const MAX_DEPTH := 2
  const MAX_REQUESTS := 12
  const MAX_TEXT_CHARS := 20000
  const MAX_OUTPUT_BYTES := 384 * 1024

  datatype Response = Response(text: string, links: seq<string>)

  datatype Page = Page(url: string, text: string, links: seq<string>)

  /** The outside: normalisation of an address on its own and relative to a page, and what a
      request returns (None for any failure). */
  datatype World = World(
    entries: seq<string>,
    normalize: string -> Option<string>,
    link: (string, string) -> Option<string>,
    get: string -> Option<Response>)

  /** Normal addresses are kept by normalisation, and a response text holds no NUL. */
  ghost predicate Sound(w: World) {
    (forall s: string :: w.normalize(s).Some? ==> w.normalize(w.normalize(s).value) == w.normalize(s))
    && forall s: string :: w.get(s).Some? ==> '\0' !in w.get(s).value.text
  }

  function Cut(s: string): string { if |s| > MAX_TEXT_CHARS then s[..MAX_TEXT_CHARS] else s }

  /** `_fetch_one` on a normal address. */
  function Fetch(w: World, url: string): Option<Page> {
    match w.get(url)
    case None => None
    case Some(r) => if Strip(Cut(r.text)) == "" then None else Some(Page(url, Strip(Cut(r.text)), r.links))
  }

  function Clamp(x: int, lo: int, hi: int): int { if x < lo then lo else if x > hi then hi else x }

  // ---------------------------------------------------------------- link distance

  /** The request is answered, and the first 20000 characters of the text are not blank. */
  predicate Readable(w: World, url: string) { w.get(url).Some? && ShownText(w.get(url).value) != "" }

  function ShownText(r: Response): string { Strip(if |r.text| > 20000 then r.text[..20000] else r.text) }

  /** The page could be read, and one of its links leads to the address. */
  ghost predicate Links(w: World, from: string, to: string) {
    Readable(w, from) && exists i :: 0 <= i < |w.get(from).value.links| && LeadsTo(w, from, i, to)
  }

  predicate LeadsTo(w: World, from: string, i: nat, to: string)
    requires Readable(w, from) && i < |w.get(from).value.links|
  {
    var child := w.link(from, w.get(from).value.links[i]);
    child.Some? && w.normalize(child.value) == Some(to)
  }

  /** Exactly the readable addresses give a page, with their text and all their links. */
  lemma FetchReads(w: World, url: string)
    ensures Fetch(w, url).Some? <==> Readable(w, url)
    ensures Fetch(w, url).Some? ==>
              Fetch(w, url).value == Page(url, ShownText(w.get(url).value), w.get(url).value.links)
  {
    hide Strip;
  }

  /** There is a chain of n links from an entry page, all of whose pages can be read. */
  ghost predicate Reach(w: World, url: string, n: nat)
    decreases n
  {
    if n == 0 then url in w.entries else exists p :: Reach(w, p, n - 1) && Links(w, p, url)
  }

  ghost predicate Shortest(w: World, url: string, n: nat) {
    Reach(w, url, n) && forall k :: 0 <= k < n ==> !Reach(w, url, k)
  }

  // ---------------------------------------------------------------- invariants of the search

  type Queue = seq<(string, nat)>

  ghost predicate Waiting(w: World, queue: Queue, url: string, n: nat) {
    exists i :: 0 <= i < |queue| && queue[i].1 <= n && w.normalize(queue[i].0) == Some(url)
  }

  ghost predicate Handled(w: World, depth: map<string, nat>, queue: Queue, url: string, n: nat) {
    (url in depth && depth[url] <= n) || Waiting(w, queue, url, n)
  }

  /** Whatever a visited page links to was visited or is waiting, one level down at most. */
  ghost predicate Closed(w: World, bound: nat, depth: map<string, nat>, queue: Queue) {
    (forall u, v :: u in depth && depth[u] < bound && Links(w, u, v) ==> Handled(w, depth, queue, v, depth[u] + 1))
    && forall e :: e in w.entries ==> Handled(w, depth, queue, e, 0)
  }

  /** The queue is sorted by depth, spans two levels, and is behind everything visited. */
  predicate Ordered(depth: map<string, nat>, queue: Queue) {
    (forall i, j :: 0 <= i < j < |queue| ==> queue[i].1 <= queue[j].1 <= queue[i].1 + 1)
    && forall u, i :: u in depth && 0 <= i < |queue| ==> depth[u] <= queue[i].1
  }

  ghost predicate Leads(w: World, bound: nat, item: (string, nat)) {
    item.1 <= bound && forall v :: w.normalize(item.0) == Some(v) ==> Reach(w, v, item.1)
  }

  ghost predicate Sourced(w: World, bound: nat, queue: Queue) {
    forall i :: 0 <= i < |queue| ==> Leads(w, bound, queue[i])
  }

  ghost predicate Visited(w: World, bound: nat, depth: map<string, nat>) {
    forall u :: u in depth ==> w.normalize(u) == Some(u) && depth[u] <= bound && Shortest(w, u, depth[u])
  }

  /** Everything nearer than the front of the queue has been visited, as near as it is. */
  lemma {:induction false} NearerIsVisited(w: World, bound: nat, depth: map<string, nat>, queue: Queue, d: nat,
                                           url: string, k: nat)
    requires Closed(w, bound, depth, queue) && k < d <= bound + 1 && Reach(w, url, k)
    requires forall i :: 0 <= i < |queue| ==> d <= queue[i].1
    ensures url in depth && depth[url] <= k
    decreases k
  {
    hide Links;
    if k > 0 {
      var p :| Reach(w, p, k - 1) && Links(w, p, url);
      NearerIsVisited(w, bound, depth, queue, d, p, k - 1);
      assert Handled(w, depth, queue, url, depth[p] + 1);
    } else {
      assert Handled(w, depth, queue, url, 0);
    }
  }

  /** Dropping the front of the queue, once its address has been visited or has none. */
  lemma PopKeepsClosed(w: World, bound: nat, before: map<string, nat>, depth: map<string, nat>, queue: Queue)
    requires Closed(w, bound, before, queue) && queue != []
    requires forall u :: u in before ==> u in depth && depth[u] == before[u]
    requires forall v :: w.normalize(queue[0].0) == Some(v) ==> v in depth && depth[v] <= queue[0].1
    ensures forall v, n :: Handled(w, before, queue, v, n) ==> Handled(w, depth, queue[1..], v, n)
  {
    forall v, n | Handled(w, before, queue, v, n)
      ensures Handled(w, depth, queue[1..], v, n)
    {
      if !(v in before && before[v] <= n) {
        var i :| 0 <= i < |queue| && queue[i].1 <= n && w.normalize(queue[i].0) == Some(v);
        if i > 0 { assert queue[1..][i - 1] == queue[i]; }
      }
    }
  }

  lemma WaitingStays(w: World, queue: Queue, more: Queue, url: string, n: nat)
    requires Waiting(w, queue, url, n)
    ensures Waiting(w, queue + more, url, n)
  {
    var i :| 0 <= i < |queue| && queue[i].1 <= n && w.normalize(queue[i].0) == Some(url);
    assert (queue + more)[i] == queue[i];
  }

  // ---------------------------------------------------------------- the loop over one page's links

  ghost predicate IsChild(w: World, url: string, links: seq<string>, child: string) {
    exists k :: 0 <= k < |links| && w.link(url, links[k]) == Some(child)
  }

  method Enqueue(w: World, url: string, links: seq<string>, d: nat, visited: set<string>, queue: Queue)
    returns (r: Queue)
    ensures queue <= r
    ensures forall i :: |queue| <= i < |r| ==> r[i].1 == d + 1 && IsChild(w, url, links, r[i].0)
    ensures forall c :: IsChild(w, url, links, c) && c !in visited ==> (c, d + 1) in r
  {
    r := queue;
    for k := 0 to |links|
      invariant queue <= r
      invariant forall i :: |queue| <= i < |r| ==> r[i].1 == d + 1 && IsChild(w, url, links, r[i].0)
      invariant forall m :: 0 <= m < k ==>
                  w.link(url, links[m]).Some? && w.link(url, links[m]).value !in visited ==>
                    (w.link(url, links[m]).value, d + 1) in r
    {
      var child := w.link(url, links[k]);
      if child.Some? && child.value !in visited { r := r + [(child.value, d + 1)]; }
    }
  }

  // ---------------------------------------------------------------- one request

  /** The pages of the addresses that could be read, in order. */
  function PagesOf(w: World, urls: seq<string>): seq<Page> {
    if urls == [] then []
    else
      PagesOf(w, urls[..|urls| - 1]) +
      match Fetch(w, urls[|urls| - 1]) { case Some(p) => [p] case None => [] }
  }

  /** The readable ones of some addresses, in order. */
  function ReadableOf(w: World, urls: seq<string>): seq<string> {
    if urls == [] then []
    else ReadableOf(w, urls[..|urls| - 1]) + if Readable(w, urls[|urls| - 1]) then [urls[|urls| - 1]] else []
  }

  /** One page for each readable address, in order, with what the request returned. */
  predicate ShowsPages(w: World, urls: seq<string>, pages: seq<Page>) {
    |pages| == |ReadableOf(w, urls)|
    && forall i :: 0 <= i < |pages| ==> IsPage(w, ReadableOf(w, urls)[i], pages[i])
  }

  predicate IsPage(w: World, url: string, p: Page) {
    w.get(url).Some? && p.url == url && p.text == ShownText(w.get(url).value) && p.links == w.get(url).value.links
  }

  lemma {:induction false} PagesAreRead(w: World, urls: seq<string>)
    ensures ShowsPages(w, urls, PagesOf(w, urls))
  {
    hide Fetch, Readable, ShownText;
    if urls == [] {
    } else {
      var n := |urls| - 1;
      PagesAreRead(w, urls[..n]);
      FetchReads(w, urls[n]);
      ReadableIsAnswered(w, urls[n]);
    }
  }

  lemma ReadableIsAnswered(w: World, url: string)
    ensures Readable(w, url) ==> w.get(url).Some?
  {
  }

  /** After a request for `url`, taken from the front of the queue at depth d. */
  lemma RequestIsShortest(w: World, bound: nat, depth: map<string, nat>, queue: Queue, url: string)
    requires queue != [] && w.normalize(queue[0].0) == Some(url) && url !in depth
    requires Closed(w, bound, depth, queue) && Ordered(depth, queue) && Sourced(w, bound, queue)
    ensures Shortest(w, url, queue[0].1)
  {
    hide Links;
    var d := queue[0].1;
    assert Leads(w, bound, queue[0]);
    forall k | 0 <= k < d
      ensures !Reach(w, url, k)
    {
      if Reach(w, url, k) { NearerIsVisited(w, bound, depth, queue, d, url, k); }
    }
  }

  /** The children of the page just read are reachable one link further. */
  lemma ChildrenLead(w: World, bound: nat, url: string, d: nat, child: string)
    requires Fetch(w, url).Some? && IsChild(w, url, Fetch(w, url).value.links, child)
    requires Reach(w, url, d) && d < bound
    ensures Leads(w, bound, (child, d + 1))
  {
    hide Fetch, Readable;
    FetchReads(w, url);
    var links := Fetch(w, url).value.links;
    forall v | w.normalize(child) == Some(v)
      ensures Reach(w, v, d + 1)
    {
      var k :| 0 <= k < |links| && w.link(url, links[k]) == Some(child);
      assert LeadsTo(w, url, k, v);
      assert Links(w, url, v);
    }
  }

  /** What stands behind position `from` are children of the page, one level down. */
  ghost predicate Fresh(w: World, bound: nat, url: string, d: nat, after: Queue, from: nat) {
    forall i :: from <= i < |after| ==>
      after[i].1 == d + 1 && d < bound && Fetch(w, url).Some? && IsChild(w, url, Fetch(w, url).value.links, after[i].0)
  }

  /** Every child of the page that was not visited has been queued. */
  ghost predicate AllQueued(w: World, bound: nat, before: map<string, nat>, url: string, d: nat, after: Queue) {
    Fetch(w, url).Some? && d < bound ==>
      forall c :: IsChild(w, url, Fetch(w, url).value.links, c) && c !in before && c != url ==> (c, d + 1) in after
  }

  /** Once its children are queued, the new page is accounted for. */
  lemma RequestKeepsClosed(w: World, bound: nat, before: map<string, nat>, queue: Queue, url: string, after: Queue)
    requires queue != [] && w.normalize(queue[0].0) == Some(url) == w.normalize(url) && url !in before
    requires Closed(w, bound, before, queue) && queue[1..] <= after
    requires forall u :: u in before ==> w.normalize(u) == Some(u) && before[u] <= queue[0].1
    requires AllQueued(w, bound, before, url, queue[0].1, after)
    ensures Closed(w, bound, before[url := queue[0].1], after)
  {
    hide Fetch, Readable;
    FetchReads(w, url);
    var d := queue[0].1;
    var depth := before[url := d];
    PopKeepsClosed(w, bound, before, depth, queue);
    var more := after[|queue| - 1..];
    assert after == queue[1..] + more;
    forall v, n | Handled(w, depth, queue[1..], v, n)
      ensures Handled(w, depth, after, v, n)
    {
      if Waiting(w, queue[1..], v, n) { WaitingStays(w, queue[1..], more, v, n); }
    }
    forall u, v | u in depth && depth[u] < bound && Links(w, u, v)
      ensures Handled(w, depth, after, v, depth[u] + 1)
    {
      if u == url {
        NewPageHandled(w, before, url, d, after, v);
      } else {
        assert Handled(w, before, queue, v, before[u] + 1);
      }
    }
  }

  lemma NewPageHandled(w: World, before: map<string, nat>, url: string, d: nat, after: Queue, v: string)
    requires w.normalize(url) == Some(url) && Links(w, url, v)
    requires forall u :: u in before ==> w.normalize(u) == Some(u) && before[u] <= d
    requires forall c :: IsChild(w, url, w.get(url).value.links, c) && c !in before && c != url ==> (c, d + 1) in after
    ensures Handled(w, before[url := d], after, v, d + 1)
  {
    hide ShownText;
    var links := w.get(url).value.links;
    var k :| 0 <= k < |links| && LeadsTo(w, url, k, v);
    var c := w.link(url, links[k]).value;
    assert IsChild(w, url, links, c);
    if c !in before && c != url {
      var i :| 0 <= i < |after| && after[i] == (c, d + 1);
      assert Waiting(w, after, v, d + 1);
    }
  }

  // ---------------------------------------------------------------- the crawl

  /** The search so far. */
  ghost predicate Searching(w: World, bound: nat, depth: map<string, nat>, queue: Queue) {
    Closed(w, bound, depth, queue) && Ordered(depth, queue) && Sourced(w, bound, queue) && Visited(w, bound, depth)
  }

  lemma StartsSearching(w: World, bound: nat, queue: Queue)
    requires forall e :: e in w.entries ==> w.normalize(e) == Some(e)
    requires |queue| == |w.entries| && forall i :: 0 <= i < |queue| ==> queue[i] == (w.entries[i], 0)
    ensures Searching(w, bound, map[], queue)
  {
    forall e | e in w.entries
      ensures Handled(w, map[], queue, e, 0)
    {
      var i :| 0 <= i < |w.entries| && w.entries[i] == e;
      assert queue[i] == (e, 0);
      assert Waiting(w, queue, e, 0);
    }
  }

  /** An address that is not normal, or was visited already, is dropped. */
  lemma SkipKeeps(w: World, bound: nat, depth: map<string, nat>, queue: Queue)
    requires Searching(w, bound, depth, queue) && queue != []
    requires w.normalize(queue[0].0) == None || w.normalize(queue[0].0).value in depth
    ensures Searching(w, bound, depth, queue[1..])
  {
    hide Links, Leads, Shortest, Handled;
    PopKeepsClosed(w, bound, depth, depth, queue);
  }

  lemma OrderedAfter(w: World, before: map<string, nat>, queue: Queue, url: string, after: Queue)
    requires Ordered(before, queue) && queue != [] && queue[1..] <= after
    requires forall i :: |queue| - 1 <= i < |after| ==> after[i].1 == queue[0].1 + 1
    ensures Ordered(before[url := queue[0].1], after)
  {
    forall i | 0 <= i < |after|
      ensures queue[0].1 <= after[i].1 <= queue[0].1 + 1
      ensures i < |queue| - 1 ==> after[i] == queue[i + 1]
    {
      if i < |queue| - 1 { assert after[i] == queue[1..][i]; }
    }
  }

  lemma SourcedAfter(w: World, bound: nat, queue: Queue, after: Queue)
    requires Sourced(w, bound, queue) && queue != [] && queue[1..] <= after
    requires forall i :: |queue| - 1 <= i < |after| ==> Leads(w, bound, after[i])
    ensures Sourced(w, bound, after)
  {
    hide Leads;
    forall i | 0 <= i < |after|
      ensures Leads(w, bound, after[i])
    {
      if i < |queue| - 1 { assert after[i] == queue[1..][i] == queue[i + 1]; }
    }
  }

  /** The address of one request, its depth, and the queue it leaves. */
  lemma RequestKeeps(w: World, bound: nat, before: map<string, nat>, queue: Queue, url: string, after: Queue)
    requires Searching(w, bound, before, queue) && queue != [] && queue[1..] <= after
    requires w.normalize(queue[0].0) == Some(url) == w.normalize(url) && url !in before
    requires Fresh(w, bound, url, queue[0].1, after, |queue| - 1)
    requires AllQueued(w, bound, before, url, queue[0].1, after)
    ensures Searching(w, bound, before[url := queue[0].1], after)
  {
    hide Links, Leads, Shortest, Closed, Fetch, IsChild, Reach;
    RequestIsShortest(w, bound, before, queue, url);
    RequestKeepsClosed(w, bound, before, queue, url, after);
    OrderedAfter(w, before, queue, url, after);
    assert queue[0].1 <= bound by { BoundOf(w, bound, queue[0]); }
    forall i | |queue| - 1 <= i < |after|
      ensures Leads(w, bound, after[i])
    {
      assert Reach(w, url, queue[0].1) by { ReachOf(w, url, queue[0].1); }
      ChildrenLead(w, bound, url, queue[0].1, after[i].0);
    }
    SourcedAfter(w, bound, queue, after);
  }

  lemma BoundOf(w: World, bound: nat, item: (string, nat))
    requires Leads(w, bound, item)
    ensures item.1 <= bound
  {
  }

  lemma ReachOf(w: World, url: string, d: nat)
    requires Shortest(w, url, d)
    ensures Reach(w, url, d)
  {
  }

  /** With nothing left in the queue, everything within the depth bound has been requested. */
  lemma NothingLeft(w: World, bound: nat, depth: map<string, nat>)
    requires Closed(w, bound, depth, [])
    ensures forall u, k: nat :: k <= bound && Reach(w, u, k) ==> u in depth
  {
    forall u, k: nat | k <= bound && Reach(w, u, k)
      ensures u in depth
    {
      NearerIsVisited(w, bound, depth, [], bound + 1, u, k);
    }
  }

  /** The requests are all different, in order of depth, each as near as it can be reached. */
  ghost predicate RequestsOk(w: World, bound: nat, requested: seq<string>, depth: map<string, nat>) {
    (forall u :: u in requested <==> u in depth)
    && (forall i, j :: 0 <= i < j < |requested| ==>
          requested[i] != requested[j] && depth[requested[i]] <= depth[requested[j]])
    && forall u :: u in depth ==> w.normalize(u) == Some(u) && depth[u] <= bound && Shortest(w, u, depth[u])
  }

  lemma RequestsGrow(w: World, bound: nat, requested: seq<string>, depth: map<string, nat>, url: string, d: nat)
    requires RequestsOk(w, bound, requested, depth) && url !in depth
    requires forall u :: u in depth ==> depth[u] <= d
    requires Visited(w, bound, depth[url := d])
    ensures RequestsOk(w, bound, requested + [url], depth[url := d])
  {
    hide Shortest;
    var all := requested + [url];
    assert forall i :: 0 <= i < |requested| ==> all[i] == requested[i] && requested[i] in requested;
  }

  lemma PagesGrow(w: World, requested: seq<string>, url: string)
    ensures PagesOf(w, requested + [url]) ==
            PagesOf(w, requested) + match Fetch(w, url) { case Some(p) => [p] case None => [] }
  {
    hide Fetch;
    assert (requested + [url])[..|requested|] == requested;
  }

  /** The search, and the account of it. */
  ghost predicate Crawled(w: World, bound: nat, requested: seq<string>, depth: map<string, nat>, queue: Queue,
                          pages: seq<Page>)
  {
    Searching(w, bound, depth, queue) && RequestsOk(w, bound, requested, depth) && pages == PagesOf(w, requested)
  }

  /** One request takes the crawl one step further. */
  lemma RequestAdvances(w: World, bound: nat, requested: seq<string>, depth: map<string, nat>, queue: Queue,
                        pages: seq<Page>, url: string, after: Queue)
    requires Sound(w) && Crawled(w, bound, requested, depth, queue, pages)
    requires queue != [] && w.normalize(queue[0].0) == Some(url) && url !in depth && queue[1..] <= after
    requires Fresh(w, bound, url, queue[0].1, after, |queue| - 1)
    requires AllQueued(w, bound, depth, url, queue[0].1, after)
    ensures Crawled(w, bound, requested + [url], depth[url := queue[0].1], after,
                    pages + match Fetch(w, url) { case Some(p) => [p] case None => [] })
  {
    hide Searching, RequestsOk, Fetch, Fresh, AllQueued, Sound, Visited;
    NormalIsKept(w, queue[0].0);
    FrontIsLast(w, bound, depth, queue);
    RequestKeeps(w, bound, depth, queue, url, after);
    PagesGrow(w, requested, url);
    VisitedNow(w, bound, depth[url := queue[0].1], after);
    RequestsGrow(w, bound, requested, depth, url, queue[0].1);
  }

  lemma SkipAdvances(w: World, bound: nat, requested: seq<string>, depth: map<string, nat>, queue: Queue,
                     pages: seq<Page>)
    requires Crawled(w, bound, requested, depth, queue, pages) && queue != []
    requires w.normalize(queue[0].0) == None || w.normalize(queue[0].0).value in depth
    ensures Crawled(w, bound, requested, depth, queue[1..], pages)
  {
    hide Searching;
    SkipKeeps(w, bound, depth, queue);
  }

  /** What the crawl promises: its account is right, and it stops early only at a budget. */
  ghost predicate Complete(w: World, bound: nat, requested: seq<string>) {
    forall u, k: nat :: k <= bound && Reach(w, u, k) ==> u in requested
  }

  ghost predicate NormalEntries(w: World) { forall e :: e in w.entries ==> w.normalize(e) == Some(e) }

  method EntriesAreNormal(w: World) returns (ok: bool)
    ensures ok <==> NormalEntries(w)
  {
    for i := 0 to |w.entries|
      invariant forall k :: 0 <= k < i ==> w.normalize(w.entries[k]) == Some(w.entries[k])
    {
      if w.normalize(w.entries[i]) != Some(w.entries[i]) {
        assert w.entries[i] in w.entries;
        return false;
      }
    }
    ok := true;
  }

  /** `research_official_qiwe_documents`. */
  method Research(w: World, maxDepth: int, maxPages: int)
    returns (pages: seq<Page>, requested: seq<string>, ghost depth: map<string, nat>)
    requires Sound(w)
    ensures var bound := if maxDepth < 0 then 0 else if maxDepth > 2 then 2 else maxDepth;
            var limit := if maxPages < 1 then 1 else if maxPages > 4 then 4 else maxPages;
            |requested| <= 12 && |pages| <= limit
            && pages == PagesOf(w, requested) && RequestsOk(w, bound, requested, depth)
            && (NormalEntries(w) && |requested| < 12 && |pages| < limit ==> Complete(w, bound, requested))
    ensures ShowsPages(w, requested, pages)
    ensures !NormalEntries(w) ==> requested == []
  {
    hide Crawled, Fetch, Sound, IsChild, Complete, NormalEntries, RequestsOk, PagesOf, ShowsPages;
    var bound, limit := Clamp(maxDepth, 0, MAX_DEPTH), Clamp(maxPages, 1, MAX_PAGES);
    pages, requested, depth := [], [], map[];
    NothingCrawled(w, bound);
    var ok := EntriesAreNormal(w);
    if !ok { return; }
    var queue: Queue := seq(|w.entries|, i requires 0 <= i < |w.entries| => (w.entries[i], 0));
    var visited: set<string> := {};
    var requestCount := 0;
    StartsCrawled(w, bound, queue);
    while queue != [] && |pages| < limit && requestCount < MAX_REQUESTS
      invariant visited == depth.Keys && requestCount == |requested| <= MAX_REQUESTS && |pages| <= limit
      invariant Crawled(w, bound, requested, depth, queue, pages)
      decreases MAX_REQUESTS - requestCount, |queue|
    {
      ghost var front := queue;
      var (candidate, d) := queue[0];
      queue := queue[1..];
      var normal := w.normalize(candidate);
      if normal.None? || normal.value in visited {
        SkipAdvances(w, bound, requested, depth, front, pages);
        continue;
      }
      var url := normal.value;
      if d == 0 && url !in w.entries {
        FrontIsEntry(w, bound, requested, depth, front, pages, url);
        assert false;
      }
      visited := visited + {url};
      requestCount := requestCount + 1;
      var page := Fetch(w, url);
      if page.Some? && d < bound { queue := Enqueue(w, url, page.value.links, d, visited, queue); }
      RequestAdvances(w, bound, requested, depth, front, pages, url, queue);
      if page.Some? { pages := pages + [page.value]; } else { assert pages + [] == pages; }
      requested := requested + [url];
      depth := depth[url := d];
    }
    Account(w, bound, requested, depth, queue, pages);
    PagesAreRead(w, requested);
  }

  lemma NothingCrawled(w: World, bound: nat)
    ensures PagesOf(w, []) == [] && RequestsOk(w, bound, [], map[]) && ShowsPages(w, [], [])
  {
  }

  lemma StartsCrawled(w: World, bound: nat, queue: Queue)
    requires NormalEntries(w)
    requires |queue| == |w.entries| && forall i :: 0 <= i < |queue| ==> queue[i] == (w.entries[i], 0)
    ensures Crawled(w, bound, [], map[], queue, [])
  {
    hide Searching;
    StartsSearching(w, bound, queue);
  }

  lemma Account(w: World, bound: nat, requested: seq<string>, depth: map<string, nat>, queue: Queue, pages: seq<Page>)
    requires Crawled(w, bound, requested, depth, queue, pages)
    ensures RequestsOk(w, bound, requested, depth) && pages == PagesOf(w, requested)
    ensures queue == [] ==> Complete(w, bound, requested)
  {
    hide Searching, Shortest, Reach, PagesOf;
    if queue == [] { LeftOver(w, bound, depth); }
  }

  lemma NormalIsKept(w: World, s: string)
    requires Sound(w) && w.normalize(s).Some?
    ensures w.normalize(w.normalize(s).value) == w.normalize(s)
  {
  }

  /** At depth 0 there are only entry pages, so the check for foreign addresses never fires. */
  lemma FrontIsEntry(w: World, bound: nat, requested: seq<string>, depth: map<string, nat>, queue: Queue,
                     pages: seq<Page>, url: string)
    requires Crawled(w, bound, requested, depth, queue, pages) && queue != [] && queue[0].1 == 0
    requires w.normalize(queue[0].0) == Some(url)
    ensures url in w.entries
  {
    assert Leads(w, bound, queue[0]);
  }

  lemma FrontIsLast(w: World, bound: nat, depth: map<string, nat>, queue: Queue)
    requires Searching(w, bound, depth, queue) && queue != []
    ensures forall u :: u in depth ==> depth[u] <= queue[0].1
  {
    hide Closed, Sourced, Visited;
  }

  lemma VisitedNow(w: World, bound: nat, depth: map<string, nat>, queue: Queue)
    requires Searching(w, bound, depth, queue)
    ensures Visited(w, bound, depth)
  {
  }

  lemma LeftOver(w: World, bound: nat, depth: map<string, nat>)
    requires Searching(w, bound, depth, [])
    ensures forall u, k: nat :: k <= bound && Reach(w, u, k) ==> u in depth
  {
    NothingLeft(w, bound, depth);
  }

  // ---------------------------------------------------------------- the encoder

  datatype Encoded = Encoded(pages: seq<(string, string)>) | TooManyPages | InvalidPage | TooLong

  predicate PageOk(w: World, p: Page) {
    w.normalize(p.url) == Some(p.url) && p.text != "" && '\0' !in p.text && |p.text| <= 20000
  }

  function Documents(pages: seq<Page>): seq<(string, string)> {
    seq(|pages|, i requires 0 <= i < |pages| => (pages[i].url, pages[i].text))
  }

  predicate ValidPages(w: World, pages: seq<Page>) {
    && (forall i :: 0 <= i < |pages| ==> PageOk(w, pages[i]))
    && forall i, j :: 0 <= i < j < |pages| ==> pages[i].url != pages[j].url
  }

  /** `encode_worker_result`; `size` is the length of the JSON document in bytes. */
  method Encode(w: World, pages: seq<Page>, size: seq<(string, string)> -> nat) returns (r: Encoded)
    ensures r == TooManyPages <==> |pages| > 4
    ensures r == InvalidPage <==> |pages| <= 4 && !ValidPages(w, pages)
    ensures r == TooLong <==> |pages| <= 4 && ValidPages(w, pages) && size(Documents(pages)) > 384 * 1024
    ensures r.Encoded? ==>
              |r.pages| == |pages| && forall i :: 0 <= i < |pages| ==> r.pages[i] == (pages[i].url, pages[i].text)
  {
    if |pages| > MAX_PAGES { return TooManyPages; }
    var output: seq<(string, string)> := [];
    var seen: set<string> := {};
    for i := 0 to |pages|
      invariant |output| == i && forall k :: 0 <= k < i ==> output[k] == (pages[k].url, pages[k].text)
      invariant forall u :: u in seen <==> exists k :: 0 <= k < i && pages[k].url == u
      invariant forall k :: 0 <= k < i ==> PageOk(w, pages[k])
      invariant forall j, k :: 0 <= j < k < i ==> pages[j].url != pages[k].url
    {
      if !PageOk(w, pages[i]) { return InvalidPage; }
      if pages[i].url in seen {
        var k :| 0 <= k < i && pages[k].url == pages[i].url;
        return InvalidPage;
      }
      seen := seen + {pages[i].url};
      output := output + [(pages[i].url, pages[i].text)];
    }
    assert output == Documents(pages);
    if size(output) > MAX_OUTPUT_BYTES { return TooLong; }
    r := Encoded(output);
  }

  /** Acceptable pages with different addresses, all of them requested. */
  ghost predicate GoodPages(w: World, urls: seq<string>, ps: seq<Page>) {
    (forall i :: 0 <= i < |ps| ==> PageOk(w, ps[i]) && ps[i].url in urls)
    && forall i, j :: 0 <= i < j < |ps| ==> ps[i].url != ps[j].url
  }

  lemma OneMorePage(w: World, urls: seq<string>, ps: seq<Page>, p: Page)
    requires GoodPages(w, urls, ps) && PageOk(w, p) && p.url !in urls
    ensures GoodPages(w, urls + [p.url], ps + [p])
  {
    hide PageOk;
    var all := ps + [p];
    assert forall i :: 0 <= i < |ps| ==> all[i] == ps[i];
    assert all[|ps|] == p;
  }

  lemma OneMoreUrl(w: World, urls: seq<string>, ps: seq<Page>, url: string)
    requires GoodPages(w, urls, ps)
    ensures GoodPages(w, urls + [url], ps + [])
  {
    hide PageOk;
    assert ps + [] == ps;
  }

  lemma {:induction false} PagesAreGood(w: World, urls: seq<string>)
    requires Sound(w)
    requires forall i, j :: 0 <= i < j < |urls| ==> urls[i] != urls[j]
    requires forall u :: u in urls ==> w.normalize(u) == Some(u)
    ensures GoodPages(w, urls, PagesOf(w, urls))
  {
    hide Fetch, PageOk, Sound, GoodPages, PagesOf;
    if urls == [] {
      assert GoodPages(w, [], PagesOf(w, [])) by { NoPages(w); }
    } else {
      var n := |urls| - 1;
      var front := urls[..n];
      assert urls[n] !in front && forall u :: u in front ==> u in urls;
      assert urls == front + [urls[n]];
      PagesAreGood(w, front);
      PagesGrow(w, front, urls[n]);
      match Fetch(w, urls[n]) {
        case Some(p) =>
          FetchedIsGood(w, urls[n]);
          OneMorePage(w, front, PagesOf(w, front), p);
        case None => OneMoreUrl(w, front, PagesOf(w, front), urls[n]);
      }
    }
  }

  lemma NoPages(w: World)
    ensures GoodPages(w, [], PagesOf(w, []))
  {
  }

  lemma FetchedIsGood(w: World, url: string)
    requires Sound(w) && Fetch(w, url).Some? && w.normalize(url) == Some(url)
    ensures PageOk(w, Fetch(w, url).value) && Fetch(w, url).value.url == url
  {
    hide Strip;
    StripIs(Cut(w.get(url).value.text));
  }

  /** Whatever the crawl returns, the encoder finds no duplicate and no invalid page in it; it is
      encoded unless the document is too long. */
  method ResearchAndEncode(w: World, maxDepth: int, maxPages: int, size: seq<(string, string)> -> nat)
    returns (r: Encoded, pages: seq<Page>, requested: seq<string>, ghost depth: map<string, nat>)
    requires Sound(w)
    ensures r == if size(Documents(pages)) > 384 * 1024 then TooLong else Encoded(Documents(pages))
    ensures RequestsOk(w, Clamp(maxDepth, 0, MAX_DEPTH), requested, depth) && ShowsPages(w, requested, pages)
  {
    hide Sound, PageOk, RequestsOk, ShowsPages;
    pages, requested, depth := Research(w, maxDepth, maxPages);
    r := Encode(w, pages, size);
    GoodToEncode(w, Clamp(maxDepth, 0, MAX_DEPTH), requested, depth);
  }

  lemma GoodToEncode(w: World, bound: nat, requested: seq<string>, depth: map<string, nat>)
    requires Sound(w) && RequestsOk(w, bound, requested, depth)
    ensures GoodPages(w, requested, PagesOf(w, requested))
  {
    hide Shortest, PageOk, Sound;
    PagesAreGood(w, requested);
  }
}
