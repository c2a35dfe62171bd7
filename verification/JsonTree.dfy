/** JSON values as Python's `json` module delivers them, and the list of their nodes. */
module JsonTree {
  import opened Text

  datatype Key = Text(s: string) | OtherKey(repr: string)

  datatype Entry = Entry(key: Key, value: Json)

  /** A float carries whether it is finite; any other Python object is unsupported. */
  datatype Json =
    | JNull
    | JBool(b: bool)
    | JInt(i: int)
    | JFloat(finite: bool, repr: string)
    | JStr(s: string)
    | JList(items: seq<Json>)
    | JObj(entries: seq<Entry>)
    | JOther

  /** A node together with its depth. */
  type Node = (Json, nat)

  function NodesOf(j: Json, depth: nat): multiset<Node>
    decreases j, 1
  {
    multiset{(j, depth)} +
    (match j
     case JList(items) => NodesOfAll(items, depth + 1)
     case JObj(entries) => NodesOfEntries(entries, depth + 1)
     case _ => multiset{})
  }

  function NodesOfAll(items: seq<Json>, depth: nat): multiset<Node>
    decreases items, 0
  {
    if items == [] then multiset{}
    else NodesOfAll(items[..|items| - 1], depth) + NodesOf(items[|items| - 1], depth)
  }

  function NodesOfEntries(entries: seq<Entry>, depth: nat): multiset<Node>
    decreases entries, 0
  {
    if entries == [] then multiset{}
    else
      var last := entries[|entries| - 1];
      assert last.value < last;
      NodesOfEntries(entries[..|entries| - 1], depth) + NodesOf(last.value, depth)
  }

  // ---------------------------------------------------------------- places

  function Arity(j: Json): nat {
    match j
    case JList(items) => |items|
    case JObj(entries) => |entries|
    case _ => 0
  }

  function Child(j: Json, i: nat): (c: Json)
    requires i < Arity(j)
    ensures c < j
  {
    match j
    case JList(items) => items[i]
    case JObj(entries) =>
      assert entries[i] < j && entries[i].value < entries[i];
      entries[i].value
  }

  /** The value at the end of a path from the root, one child number at each step. */
  predicate StandsAt(j: Json, p: seq<nat>, n: Json)
    decreases |p|
  {
    if p == [] then j == n else p[0] < Arity(j) && StandsAt(Child(j, p[0]), p[1..], n)
  }

  ghost predicate SomewhereIn(j: Json, depth: nat, n: Node) {
    exists p: seq<nat> :: n.1 == depth + |p| && StandsAt(j, p, n.0)
  }

  ghost predicate InItems(items: seq<Json>, depth: nat, n: Node) {
    exists i :: 0 <= i < |items| && SomewhereIn(items[i], depth, n)
  }

  ghost predicate InEntries(entries: seq<Entry>, depth: nat, n: Node) {
    exists i :: 0 <= i < |entries| && SomewhereIn(entries[i].value, depth, n)
  }

  /** The nodes are the values at all places, each with the length of its path. */
  lemma {:induction false} NodesArePlaces(j: Json, depth: nat, n: Node)
    ensures n in NodesOf(j, depth) <==> SomewhereIn(j, depth, n)
    decreases j, 1
  {
    hide SomewhereIn;
    BelowOrHere(j, depth, n);
    match j {
      case JList(items) =>
        ItemsArePlaces(items, depth + 1, n);
        assert forall i :: 0 <= i < |items| ==> Child(j, i) == items[i];
      case JObj(entries) =>
        EntriesArePlaces(entries, depth + 1, n);
        assert forall i :: 0 <= i < |entries| ==> Child(j, i) == entries[i].value;
      case _ =>
    }
  }

  /** A place is the root, or below one of its children. */
  lemma BelowOrHere(j: Json, depth: nat, n: Node)
    ensures SomewhereIn(j, depth, n) <==>
              n == (j, depth) || exists i :: 0 <= i < Arity(j) && SomewhereIn(Child(j, i), depth + 1, n)
  {
    hide Child;
    if SomewhereIn(j, depth, n) {
      var p: seq<nat> :| n.1 == depth + |p| && StandsAt(j, p, n.0);
      if p != [] {
        assert n.1 == depth + 1 + |p[1..]|;
        assert SomewhereIn(Child(j, p[0]), depth + 1, n);
      }
    }
    if n == (j, depth) {
      var root: seq<nat> := [];
      assert StandsAt(j, root, n.0) && n.1 == depth + |root|;
    }
    forall i | 0 <= i < Arity(j) && SomewhereIn(Child(j, i), depth + 1, n)
      ensures SomewhereIn(j, depth, n)
    {
      var p: seq<nat> :| n.1 == depth + 1 + |p| && StandsAt(Child(j, i), p, n.0);
      var q: seq<nat> := [i] + p;
      assert q[1..] == p && q[0] == i && q != [];
      assert StandsAt(j, q, n.0);
    }
  }

  lemma {:induction false} ItemsArePlaces(items: seq<Json>, depth: nat, n: Node)
    ensures n in NodesOfAll(items, depth) <==> InItems(items, depth, n)
    decreases items, 0
  {
    hide NodesOf, SomewhereIn;
    if items == [] {
    } else {
      var k := |items| - 1;
      ItemsArePlaces(items[..k], depth, n);
      NodesArePlaces(items[k], depth, n);
      assert forall i :: 0 <= i < k ==> items[..k][i] == items[i];
    }
  }

  lemma {:induction false} EntriesArePlaces(entries: seq<Entry>, depth: nat, n: Node)
    ensures n in NodesOfEntries(entries, depth) <==> InEntries(entries, depth, n)
    decreases entries, 0
  {
    hide NodesOf, SomewhereIn;
    if entries == [] {
    } else {
      var k := |entries| - 1;
      var last := entries[k];
      assert last.value < last;
      EntriesArePlaces(entries[..k], depth, n);
      NodesArePlaces(last.value, depth, n);
      assert forall i :: 0 <= i < k ==> entries[..k][i] == entries[i];
    }
  }

  /** How many values there are, the value itself included. */
  function Size(j: Json): nat
    decreases j, Arity(j) + 1
  {
    1 + SizeUpTo(j, Arity(j))
  }

  function SizeUpTo(j: Json, n: nat): nat
    requires n <= Arity(j)
    decreases j, n
  {
    if n == 0 then 0 else SizeUpTo(j, n - 1) + Size(Child(j, n - 1))
  }

  lemma {:induction false} NodesAreCounted(j: Json, depth: nat)
    ensures |NodesOf(j, depth)| == Size(j)
    decreases j, Arity(j) + 1
  {
    ChildrenAreCounted(j, depth + 1, Arity(j));
    match j {
      case JList(items) => assert items[..|items|] == items;
      case JObj(entries) => assert entries[..|entries|] == entries;
      case _ =>
    }
  }

  lemma {:induction false} ChildrenAreCounted(j: Json, depth: nat, n: nat)
    requires n <= Arity(j)
    ensures j.JList? ==> |NodesOfAll(j.items[..n], depth)| == SizeUpTo(j, n)
    ensures j.JObj? ==> |NodesOfEntries(j.entries[..n], depth)| == SizeUpTo(j, n)
    decreases j, n
  {
    hide NodesOf, Size;
    if n > 0 {
      ChildrenAreCounted(j, depth, n - 1);
      NodesAreCounted(Child(j, n - 1), depth);
      if j.JList? { assert j.items[..n][..n - 1] == j.items[..n - 1]; }
      if j.JObj? { assert j.entries[..n][..n - 1] == j.entries[..n - 1]; }
    }
  }
}
