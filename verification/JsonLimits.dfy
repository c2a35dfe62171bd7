/** Two validators of bounded JSON, one with an explicit stack and one recursive, accept the
    same values: those whose nodes, counted and looked at one by one, stay within the limits. */
module JsonLimits {
  import opened Text
  import opened JsonTree

  datatype Limits = Limits(nodes: nat, depth: nat, stringBytes: nat, keyBytes: nat)

  datatype Verdict = Accepted | NodeLimit | DepthLimit | StringLimit | KeyLimit | NonFinite | Unsupported

  predicate KeyOk(lim: Limits, k: Key) { k.Text? && Utf8Length(k.s) <= lim.keyBytes }

  /** What one node must satisfy on its own. */
  predicate NodeOk(lim: Limits, n: Node) {
    n.1 <= lim.depth &&
    match n.0
    case JStr(s) => Utf8Length(s) <= lim.stringBytes
    case JFloat(finite, _) => finite
    case JObj(entries) => forall e :: e in entries ==> KeyOk(lim, e.key)
    case JOther => false
    case _ => true
  }

  /** The whole value is within the limits. */
  ghost predicate Within(lim: Limits, j: Json) {
    |NodesOf(j, 0)| <= lim.nodes && forall n :: n in NodesOf(j, 0) ==> NodeOk(lim, n)
  }

  /** Every value anywhere inside is as deep as its path is long, and within the limits on its own. */
  ghost predicate FitsAt(lim: Limits, p: seq<nat>, v: Json) {
    && |p| <= lim.depth && !v.JOther?
    && (v.JStr? ==> Utf8Length(v.s) <= lim.stringBytes) && (v.JFloat? ==> v.finite)
    && (v.JObj? ==> forall i :: 0 <= i < |v.entries| ==>
                      v.entries[i].key.Text? && Utf8Length(v.entries[i].key.s) <= lim.keyBytes)
  }

  lemma FitsIsOk(lim: Limits, p: seq<nat>, v: Json)
    ensures FitsAt(lim, p, v) <==> NodeOk(lim, (v, |p|))
  {
    hide Utf8Length;
    if v.JObj? {
      forall e | e in v.entries
        ensures exists i :: 0 <= i < |v.entries| && v.entries[i] == e
      {
      }
    }
  }

  /** What the limits mean: so many values in all, and each of them at its place within bounds. */
  lemma WithinMeans(lim: Limits, j: Json)
    ensures Within(lim, j) <==> Size(j) <= lim.nodes && forall p, v :: StandsAt(j, p, v) ==> FitsAt(lim, p, v)
  {
    hide NodesOf, NodeOk, FitsAt, StandsAt, Size;
    NodesAreCounted(j, 0);
    forall n: Node
      ensures n in NodesOf(j, 0) <==> SomewhereIn(j, 0, n)
    {
      NodesArePlaces(j, 0, n);
    }
    forall p, v | StandsAt(j, p, v)
      ensures (v, |p|) in NodesOf(j, 0) && (FitsAt(lim, p, v) <==> NodeOk(lim, (v, |p|)))
    {
      assert SomewhereIn(j, 0, (v, |p|));
      FitsIsOk(lim, p, v);
    }
    forall n: Node | n in NodesOf(j, 0) && forall p, v :: StandsAt(j, p, v) ==> FitsAt(lim, p, v)
      ensures NodeOk(lim, n)
    {
      var p: seq<nat> :| n.1 == 0 + |p| && StandsAt(j, p, n.0);
      FitsIsOk(lim, p, n.0);
    }
  }

  // ---------------------------------------------------------------- the explicit stack

  ghost function StackNodes(stack: seq<Node>): multiset<Node> {
    if stack == [] then multiset{}
    else StackNodes(stack[..|stack| - 1]) + NodesOf(stack[|stack| - 1].0, stack[|stack| - 1].1)
  }

  function Push(stack: seq<Node>, items: seq<Json>, depth: nat): seq<Node> {
    if items == [] then stack
    else Push(stack, items[..|items| - 1], depth) + [(items[|items| - 1], depth)]
  }

  function Values(entries: seq<Entry>): seq<Json> {
    if entries == [] then [] else Values(entries[..|entries| - 1]) + [entries[|entries| - 1].value]
  }

  lemma StackSnoc(stack: seq<Node>, n: Node)
    ensures StackNodes(stack + [n]) == StackNodes(stack) + NodesOf(n.0, n.1)
  {
    hide NodesOf;
    assert (stack + [n])[..|stack|] == stack;
  }

  lemma {:induction false} PushNodes(stack: seq<Node>, items: seq<Json>, depth: nat)
    ensures StackNodes(Push(stack, items, depth)) == StackNodes(stack) + NodesOfAll(items, depth)
  {
    hide NodesOf;
    if items == [] {
    } else {
      PushNodes(stack, items[..|items| - 1], depth);
      StackSnoc(Push(stack, items[..|items| - 1], depth), (items[|items| - 1], depth));
    }
  }

  lemma EntriesSnoc(entries: seq<Entry>, e: Entry, depth: nat)
    ensures NodesOfEntries(entries + [e], depth) == NodesOfEntries(entries, depth) + NodesOf(e.value, depth)
  {
    hide NodesOf;
    assert (entries + [e])[..|entries|] == entries;
  }

  lemma NodeUnfold(j: Json, depth: nat)
    ensures NodesOf(j, depth) == multiset{(j, depth)} +
              (match j
               case JList(items) => NodesOfAll(items, depth + 1)
               case JObj(entries) => NodesOfEntries(entries, depth + 1)
               case _ => multiset{})
  {
  }

  /** The nodes below a node. */
  function Below(j: Json, depth: nat): multiset<Node> {
    match j
    case JList(items) => NodesOfAll(items, depth + 1)
    case JObj(entries) => NodesOfEntries(entries, depth + 1)
    case _ => multiset{}
  }

  /** The loop over a dictionary: check the key, push the value. */
  method PushEntries(lim: Limits, stack: seq<Node>, entries: seq<Entry>, depth: nat)
    returns (ok: bool, pushed: seq<Node>)
    ensures ok <==> forall e :: e in entries ==> KeyOk(lim, e.key)
    ensures ok ==> StackNodes(pushed) == StackNodes(stack) + NodesOfEntries(entries, depth)
  {
    hide NodesOf, KeyOk, StackNodes;
    pushed := stack;
    for i := 0 to |entries|
      invariant StackNodes(pushed) == StackNodes(stack) + NodesOfEntries(entries[..i], depth)
      invariant forall k :: 0 <= k < i ==> KeyOk(lim, entries[k].key)
    {
      if !KeyOk(lim, entries[i].key) {
        assert entries[i] in entries;
        return false, pushed;
      }
      StackSnoc(pushed, (entries[i].value, depth));
      EntriesSnoc(entries[..i], entries[i], depth);
      assert entries[..i + 1] == entries[..i] + [entries[i]];
      pushed := pushed + [(entries[i].value, depth)];
    }
    assert entries[..|entries|] == entries;
    ok := true;
  }

  /** Look at one node and push its children. */
  method Visit(lim: Limits, current: Json, depth: nat, stack: seq<Node>) returns (r: Verdict, pushed: seq<Node>)
    ensures r != NodeLimit && (r == Accepted <==> NodeOk(lim, (current, depth)))
    ensures r == Accepted ==> StackNodes(pushed) == StackNodes(stack) + Below(current, depth)
    ensures r == DepthLimit <==> depth > lim.depth
    ensures r == StringLimit <==> depth <= lim.depth && current.JStr? && Utf8Length(current.s) > lim.stringBytes
    ensures r == NonFinite <==> depth <= lim.depth && current.JFloat? && !current.finite
    ensures r == KeyLimit <==>
              depth <= lim.depth && current.JObj? && exists e :: e in current.entries && !KeyOk(lim, e.key)
    ensures r == Unsupported <==> depth <= lim.depth && current.JOther?
  {
    hide NodesOf, Utf8Length, StackNodes, NodesOfAll, NodesOfEntries, Push, KeyOk;
    pushed := stack;
    if depth > lim.depth { return DepthLimit, pushed; }
    match current {
      case JStr(s) =>
        if Utf8Length(s) > lim.stringBytes { return StringLimit, pushed; }
      case JFloat(finite, _) =>
        if !finite { return NonFinite, pushed; }
      case JList(items) =>
        PushNodes(stack, items, depth + 1);
        pushed := Push(stack, items, depth + 1);
      case JObj(entries) =>
        var ok: bool;
        ok, pushed := PushEntries(lim, stack, entries, depth + 1);
        if !ok { return KeyLimit, pushed; }
      case JOther =>
        return Unsupported, pushed;
      case _ =>
    }
    r := Accepted;
  }

  lemma StackTop(stack: seq<Node>)
    requires stack != []
    ensures var (j, depth) := stack[|stack| - 1];
            StackNodes(stack) == StackNodes(stack[..|stack| - 1]) + (multiset{(j, depth)} + Below(j, depth))
  {
    hide NodesOfAll, NodesOfEntries;
  }

  /** `validate_bounded_json_value`. Every node is visited exactly once on acceptance; a refusal
      points at a node that is really bad, or at too many nodes. */
  method ValidateBounded(lim: Limits, value: Json) returns (r: Verdict, ghost visited: seq<Node>)
    ensures r == Accepted <==> Within(lim, value)
    ensures r == Accepted ==> multiset(visited) == NodesOf(value, 0)
    ensures r == NodeLimit ==> |NodesOf(value, 0)| > lim.nodes
    ensures r != Accepted && r != NodeLimit ==> exists n :: n in NodesOf(value, 0) && !NodeOk(lim, n)
  {
    hide NodesOf, NodeOk, StackNodes, Below;
    var stack: seq<Node> := [(value, 0)];
    var nodes := 0;
    visited := [];
    OneOnStack(value);
    while stack != []
      invariant multiset(visited) + StackNodes(stack) == NodesOf(value, 0)
      invariant nodes == |visited| <= lim.nodes
      invariant forall n :: n in visited ==> NodeOk(lim, n)
      decreases |StackNodes(stack)|
    {
      ghost var before := StackNodes(stack);
      StackTop(stack);
      var (current, depth) := stack[|stack| - 1];
      ghost var top := (current, depth);
      stack := stack[..|stack| - 1];
      nodes := nodes + 1;
      assert top in before;
      if nodes > lim.nodes {
        assert |multiset(visited)| + |before| == |NodesOf(value, 0)|;
        return NodeLimit, visited;
      }
      var verdict: Verdict;
      ghost var rest := stack;
      verdict, stack := Visit(lim, current, depth, stack);
      if verdict != Accepted { return verdict, visited; }
      visited := visited + [top];
      assert before == StackNodes(stack) + multiset{top};
    }
    assert StackNodes(stack) == multiset{} by { EmptyStack(); }
    r := Accepted;
  }

  lemma EmptyStack()
    ensures StackNodes([]) == multiset{}
  {
  }

  lemma OneOnStack(value: Json)
    ensures StackNodes([(value, 0)]) == NodesOf(value, 0)
  {
    StackSnoc([], (value, 0));
    assert [] + [(value, 0)] == [(value, 0)];
  }

  // ---------------------------------------------------------------- the recursive walker

  /** Every node of the multiset is acceptable on its own. */
  ghost predicate AllOk(lim: Limits, nodes: multiset<Node>) { forall n :: n in nodes ==> NodeOk(lim, n) }

  /** The nodes below the first children are among the nodes below all of them. */
  lemma {:induction false} ItemsPrefix(items: seq<Json>, i: nat, depth: nat)
    requires i <= |items|
    ensures NodesOfAll(items[..i], depth) <= NodesOfAll(items, depth)
    decreases |items| - i
  {
    hide NodesOf;
    if i == |items| {
      assert items[..i] == items;
    } else {
      ItemsPrefix(items, i + 1, depth);
      assert items[..i + 1][..i] == items[..i];
    }
  }

  lemma {:induction false} EntriesPrefix(entries: seq<Entry>, i: nat, depth: nat)
    requires i <= |entries|
    ensures NodesOfEntries(entries[..i], depth) <= NodesOfEntries(entries, depth)
    decreases |entries| - i
  {
    hide NodesOf;
    if i == |entries| {
      assert entries[..i] == entries;
    } else {
      EntriesPrefix(entries, i + 1, depth);
      assert entries[..i + 1][..i] == entries[..i];
    }
  }

  lemma ItemsSnoc(items: seq<Json>, i: nat, depth: nat)
    requires i < |items|
    ensures NodesOfAll(items[..i + 1], depth) == NodesOfAll(items[..i], depth) + NodesOf(items[i], depth)
  {
    hide NodesOf;
    assert items[..i + 1][..i] == items[..i];
  }

  lemma FieldsSnoc(entries: seq<Entry>, i: nat, depth: nat)
    requires i < |entries|
    ensures NodesOfEntries(entries[..i + 1], depth)
         == NodesOfEntries(entries[..i], depth) + NodesOf(entries[i].value, depth)
  {
    hide NodesOf;
    EntriesSnoc(entries[..i], entries[i], depth);
    assert entries[..i + 1] == entries[..i] + [entries[i]];
  }

  lemma Grows(a: multiset<Node>, b: multiset<Node>)
    requires a <= b
    ensures |a| <= |b|
  {
    assert b == a + (b - a);
  }

  /** `_validate_json_limits`: a recursive walk sharing one counter. */
  class Walker {
    const lim: Limits
    var nodes: nat

    constructor (lim: Limits)
      ensures this.lim == lim && nodes == 0
    {
      this.lim := lim;
      nodes := 0;
    }

    /** The counter and the verdict after one call: accepted exactly when all the nodes below fit. */
    ghost predicate Outcome(ok: bool, before: nat, below: multiset<Node>)
      reads this
    {
      (ok <==> before + |below| <= lim.nodes && AllOk(lim, below)) && (ok ==> nodes == before + |below|)
    }

    method Walk(item: Json, depth: nat) returns (ok: bool)
      modifies this
      ensures Outcome(ok, old(nodes), NodesOf(item, depth))
      decreases item, 1
    {
      hide NodesOf, NodesOfAll, NodesOfEntries, KeyOk, Utf8Length;
      NodeUnfold(item, depth);
      assert (item, depth) in NodesOf(item, depth);
      nodes := nodes + 1;
      if nodes > lim.nodes || depth > lim.depth { return false; }
      match item {
        case JStr(s) => return Utf8Length(s) <= lim.stringBytes;
        case JObj(entries) => ok := WalkEntries(item, depth + 1);
        case JList(items) => ok := WalkItems(item, depth + 1);
        case JFloat(finite, _) => return finite;
        case JOther => return false;
        case _ => return true;
      }
    }

    method WalkItems(item: Json, depth: nat) returns (ok: bool)
      requires item.JList? && nodes <= lim.nodes
      modifies this
      ensures Outcome(ok, old(nodes), NodesOfAll(item.items, depth))
      decreases item, 0
    {
      hide NodesOf, NodeOk, NodesOfAll;
      assert NodesOfAll(item.items[..0], depth) == multiset{} by { NoItems(depth); }
      for i := 0 to |item.items|
        invariant nodes == old(nodes) + |NodesOfAll(item.items[..i], depth)| <= lim.nodes
        invariant AllOk(lim, NodesOfAll(item.items[..i], depth))
      {
        ItemsSnoc(item.items, i, depth);
        ItemsPrefix(item.items, i + 1, depth);
        Grows(NodesOfAll(item.items[..i + 1], depth), NodesOfAll(item.items, depth));
        var child := Walk(item.items[i], depth);
        if !child { return false; }
      }
      assert item.items[..|item.items|] == item.items;
      ok := true;
    }

    method WalkEntries(item: Json, depth: nat) returns (ok: bool)
      requires item.JObj? && nodes <= lim.nodes
      modifies this
      ensures ok <==> old(nodes) + |NodesOfEntries(item.entries, depth)| <= lim.nodes
                      && AllOk(lim, NodesOfEntries(item.entries, depth))
                      && forall e :: e in item.entries ==> KeyOk(lim, e.key)
      ensures ok ==> nodes == old(nodes) + |NodesOfEntries(item.entries, depth)|
      decreases item, 0
    {
      hide NodesOf, NodeOk, NodesOfEntries, KeyOk;
      assert NodesOfEntries(item.entries[..0], depth) == multiset{} by { NoEntries(depth); }
      for i := 0 to |item.entries|
        invariant nodes == old(nodes) + |NodesOfEntries(item.entries[..i], depth)| <= lim.nodes
        invariant AllOk(lim, NodesOfEntries(item.entries[..i], depth))
        invariant forall k :: 0 <= k < i ==> KeyOk(lim, item.entries[k].key)
      {
        var e := item.entries[i];
        assert e in item.entries && e < item && e.value < e;
        if !KeyOk(lim, e.key) { return false; }
        FieldsSnoc(item.entries, i, depth);
        EntriesPrefix(item.entries, i + 1, depth);
        Grows(NodesOfEntries(item.entries[..i + 1], depth), NodesOfEntries(item.entries, depth));
        var child := Walk(e.value, depth);
        if !child { return false; }
      }
      assert item.entries[..|item.entries|] == item.entries;
      ok := true;
    }
  }

  lemma NoItems(depth: nat)
    ensures NodesOfAll([], depth) == multiset{}
  {
  }

  lemma NoEntries(depth: nat)
    ensures NodesOfEntries([], depth) == multiset{}
  {
  }

  /** With the same limits the two validators accept exactly the same values. */
  method ValidatorsAgree(lim: Limits, value: Json) returns (stacked: bool, walked: bool)
    ensures stacked == walked
    ensures stacked <==> Within(lim, value)
  {
    hide NodesOf, NodeOk;
    var verdict, _ := ValidateBounded(lim, value);
    var walker := new Walker(lim);
    stacked := verdict == Accepted;
    walked := walker.Walk(value, 0);
  }
}
