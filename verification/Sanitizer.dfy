/** The callback sanitizer: it lists the outermost callback nodes of a JSON tree, in order, and
    keeps of each only the hash of the request id and which `msgData` keys are present. */
module Sanitizer {
  import opened Text
  import opened JsonTree

  /** `int()` on a value (None when it raises TypeError or ValueError), the decimal text of an
      int, and the hexadecimal SHA-256 of a text. */
  datatype World = World(toInt: Json -> Option<int>, intText: int -> string, sha: string -> string)

  const COMMAND := 20000

  datatype Presence = Presence(cloudUrl: bool, aesKey: bool, fileId: bool, md5: bool, size: bool, name: bool)

  /** `presence` is None for the empty dictionary. */
  datatype Summary = Summary(presence: Option<Presence>, isObject: bool, present: bool, required: bool, unknown: int)

  /** `request` is the hexadecimal digest, without its `sha256:` prefix. */
  datatype Event = Event(request: Option<string>, summary: Summary)

  // ---------------------------------------------------------------- keys

  predicate IsAlnum(c: char) { '0' <= c <= '9' || 'a' <= c <= 'z' || 'A' <= c <= 'Z' }

  function Squash(s: string): string {
    if s == [] then []
    else Squash(s[..|s| - 1]) + (if IsAlnum(s[|s| - 1]) then [LowerChar(s[|s| - 1])] else [])
  }

  function KeyText(k: Key): string {
    match k
    case Text(s) => s
    case OtherKey(repr) => repr
  }

  function NormalizeKey(k: Key): string { Squash(KeyText(k)) }

  /** The item of the first key that normalises to `expected`. */
  function FirstValue(entries: seq<Entry>, expected: string): Option<Json> {
    if entries == [] then None
    else
      var earlier := FirstValue(entries[..|entries| - 1], expected);
      var last := entries[|entries| - 1];
      if earlier.Some? then earlier
      else if NormalizeKey(last.key) == expected then Some(last.value)
      else None
  }

  function ValueForKey(j: Json, expected: string): Json {
    if !j.JObj? then JNull
    else match FirstValue(j.entries, expected) case Some(v) => v case None => JNull
  }

  function NormalizedKeys(entries: seq<Entry>): set<string> {
    if entries == [] then {}
    else NormalizedKeys(entries[..|entries| - 1]) + {NormalizeKey(entries[|entries| - 1].key)}
  }

  predicate IsCallback(w: World, j: Json) { j.JObj? && w.toInt(ValueForKey(j, "cmd")) == Some(COMMAND) }

  // ---------------------------------------------------------------- one event

  const KNOWN := {"fileaeskey", "fileid", "filemd5", "filesize", "filename", "cloudurl"}

  function PresenceOf(keys: set<string>): Presence {
    Presence("cloudurl" in keys, "fileaeskey" in keys, "fileid" in keys, "filemd5" in keys, "filesize" in keys,
      "filename" in keys)
  }

  predicate Required(p: Presence) { p.aesKey && p.fileId && p.md5 && p.size }

  function MsgSummary(v: Json): Summary {
    if !v.JObj? then Summary(None, false, v != JNull, false, 0)
    else
      var keys := NormalizedKeys(v.entries);
      Summary(Some(PresenceOf(keys)), true, true, Required(PresenceOf(keys)), |keys - KNOWN|)
  }

  function RequestText(w: World, v: Json): string {
    match v
    case JStr(s) => Strip(s)
    case JBool(b) => if b then "True" else "False"
    case JInt(i) => Strip(w.intText(i))
    case _ => ""
  }

  function EventOf(w: World, j: Json): Event {
    var text := RequestText(w, ValueForKey(j, "requestid"));
    Event(if text != "" then Some(w.sha(text)) else None, MsgSummary(ValueForKey(j, "msgdata")))
  }

  // ---------------------------------------------------------------- what an event says, key by key

  /** Some key of the object is this name, but for case, and for anything but letters and digits. */
  predicate HasKey(entries: seq<Entry>, name: string) {
    exists i :: 0 <= i < |entries| && NormalizeKey(entries[i].key) == name
  }

  lemma {:induction false} KeysAreNames(entries: seq<Entry>, name: string)
    ensures name in NormalizedKeys(entries) <==> HasKey(entries, name)
  {
    hide NormalizeKey;
    if entries == [] {
    } else {
      var n := |entries| - 1;
      KeysAreNames(entries[..n], name);
      assert forall i :: 0 <= i < n ==> entries[..n][i] == entries[i];
    }
  }

  /** The value found under a name is that of the first key with that name. */
  lemma {:induction false} FirstValueIs(entries: seq<Entry>, name: string)
    ensures FirstValue(entries, name).Some? <==> HasKey(entries, name)
    ensures FirstValue(entries, name).Some? ==>
              exists i :: 0 <= i < |entries| && NormalizeKey(entries[i].key) == name
                          && entries[i].value == FirstValue(entries, name).value && !HasKey(entries[..i], name)
  {
    hide NormalizeKey;
    if entries == [] {
    } else {
      var n := |entries| - 1;
      FirstValueIs(entries[..n], name);
      assert forall i :: 0 <= i < n ==> entries[..n][i] == entries[i];
      if FirstValue(entries[..n], name).Some? {
        var i :| 0 <= i < n && NormalizeKey(entries[..n][i].key) == name
                 && entries[..n][i].value == FirstValue(entries[..n], name).value && !HasKey(entries[..n][..i], name);
        assert entries[..n][..i] == entries[..i];
        assert NormalizeKey(entries[i].key) == name;
      } else if NormalizeKey(entries[n].key) == name {
        assert !HasKey(entries[..n], name);
      }
    }
  }

  lemma {:induction false} SquashConcat(a: string, b: string)
    ensures Squash(a + b) == Squash(a) + Squash(b)
  {
    hide LowerChar, IsAlnum;
    if b == [] {
      assert a + b == a;
    } else {
      var n := |b| - 1;
      assert (a + b)[..|a + b| - 1] == a + b[..n];
      SquashConcat(a, b[..n]);
    }
  }

  lemma OneSquashed(c: char)
    ensures !IsAlnum(c) ==> Squash([c]) == []
    ensures 'A' <= c <= 'Z' ==> Squash([c]) == Squash([c - 'A' + 'a'])
    ensures '0' <= c <= '9' || 'a' <= c <= 'z' ==> Squash([c]) == [c]
  {
    var d := if 'A' <= c <= 'Z' then c - 'A' + 'a' else c;
    assert [c][..0] == [] && [d][..0] == [];
    assert Squash([c]) == Squash([]) + (if IsAlnum(c) then [LowerChar(c)] else []);
    assert Squash([d]) == Squash([]) + (if IsAlnum(d) then [LowerChar(d)] else []);
  }

  lemma NothingSquashed()
    ensures Squash([]) == []
  {
  }

  /** Spellings of one name: case does not matter, nor what is neither a letter nor a digit. */
  lemma SameName(a: string, c: char, b: string)
    ensures !IsAlnum(c) ==> NormalizeKey(Text(a + [c] + b)) == NormalizeKey(Text(a + b))
    ensures 'A' <= c <= 'Z' ==>
              NormalizeKey(Text(a + [c] + b)) == NormalizeKey(Text(a + [c - 'A' + 'a'] + b))
  {
    hide Squash, IsAlnum;
    OneSquashed(c);
    SquashConcat(a, b);
    SquashConcat(a + [c], b);
    SquashConcat(a, [c]);
    if 'A' <= c <= 'Z' {
      var d := c - 'A' + 'a';
      SquashConcat(a + [d], b);
      SquashConcat(a, [d]);
    }
    assert Squash(a) + [] == Squash(a);
  }

  /** A name in small letters and digits is its own. */
  lemma {:induction false} PlainName(a: string)
    requires forall x :: x in a ==> '0' <= x <= '9' || 'a' <= x <= 'z'
    ensures NormalizeKey(Text(a)) == a
  {
    hide Squash;
    if a == [] {
      NothingSquashed();
    } else {
      var n := |a| - 1;
      assert forall x :: x in a[..n] ==> x in a;
      PlainName(a[..n]);
      SquashConcat(a[..n], [a[n]]);
      OneSquashed(a[n]);
      assert a == a[..n] + [a[n]];
      assert a[n] in a;
    }
  }

  lemma OneCallback(w: World, j: Json)
    ensures IsCallback(w, j) <==> j.JObj? && w.toInt(ValueForKey(j, "cmd")) == Some(20000)
  {
    hide ValueForKey;
  }

  /** What an event says: the digest of the stripped request id, if it is a text or a number, and
      for each of the six names whether `msgData` has it; the file can be fetched if four of them are
      there. Any other names are counted. */
  lemma EventSays(w: World, j: Json) returns (unknown: set<string>)
    ensures var e, id, data := EventOf(w, j), ValueForKey(j, "requestid"), ValueForKey(j, "msgdata");
            && (id.JStr? ==> e.request == if Strip(id.s) == "" then None else Some(w.sha(Strip(id.s))))
            && (id.JInt? && Strip(w.intText(id.i)) != "" ==> e.request == Some(w.sha(Strip(w.intText(id.i)))))
            && (id.JNull? || id.JFloat? || id.JList? || id.JObj? || id.JOther? ==> e.request == None)
            && (!data.JObj? ==> e.summary == Summary(None, false, !data.JNull?, false, 0))
            && (data.JObj? ==>
                  e.summary.presence.Some? && Says(e.summary.presence.value, data.entries)
                  && e.summary.isObject && e.summary.present
                  && (e.summary.required <==>
                        HasKey(data.entries, "fileaeskey") && HasKey(data.entries, "fileid")
                        && HasKey(data.entries, "filemd5") && HasKey(data.entries, "filesize"))
                  && e.summary.unknown == |unknown|
                  && forall name :: name in unknown <==>
                       HasKey(data.entries, name)
                       && name !in {"fileaeskey", "fileid", "filemd5", "filesize", "filename", "cloudurl"})
  {
    hide ValueForKey, NormalizedKeys, HasKey, Strip;
    var data := ValueForKey(j, "msgdata");
    unknown := {};
    if data.JObj? {
      unknown := NormalizedKeys(data.entries) - KNOWN;
      forall name
        ensures name in NormalizedKeys(data.entries) <==> HasKey(data.entries, name)
      {
        KeysAreNames(data.entries, name);
      }
    }
  }

  predicate Says(p: Presence, entries: seq<Entry>) {
    && (p.cloudUrl <==> HasKey(entries, "cloudurl")) && (p.aesKey <==> HasKey(entries, "fileaeskey"))
    && (p.fileId <==> HasKey(entries, "fileid")) && (p.md5 <==> HasKey(entries, "filemd5"))
    && (p.size <==> HasKey(entries, "filesize")) && (p.name <==> HasKey(entries, "filename"))
  }

  // ---------------------------------------------------------------- places in the tree

  type Path = seq<nat>

  /** The walk down from the root meets its first callback exactly at the end of the path. */
  predicate Outermost(w: World, j: Json, p: Path)
    decreases |p|
  {
    if p == [] then IsCallback(w, j)
    else !IsCallback(w, j) && p[0] < Arity(j) && Outermost(w, Child(j, p[0]), p[1..])
  }

  function At(w: World, j: Json, p: Path): Json
    requires Outermost(w, j, p)
    decreases |p|
  {
    if p == [] then j else At(w, Child(j, p[0]), p[1..])
  }

  /** Document order: the first place where two paths part decides. */
  predicate Before(p: Path, q: Path) {
    q != [] && (p == [] || p[0] < q[0] || (p[0] == q[0] && Before(p[1..], q[1..])))
  }

  /** The events of a tree: those of its callback nodes, a callback hiding what is below it. */
  function Events(w: World, j: Json): seq<Event>
    decreases j, Arity(j) + 1
  {
    if IsCallback(w, j) then [EventOf(w, j)] else ChildEvents(w, j, Arity(j))
  }

  function ChildEvents(w: World, j: Json, n: nat): seq<Event>
    requires n <= Arity(j)
    decreases j, n
  {
    if n == 0 then [] else ChildEvents(w, j, n - 1) + Events(w, Child(j, n - 1))
  }

  /** The places those events come from. */
  function Places(w: World, j: Json): seq<Path>
    decreases j, Arity(j) + 1
  {
    if IsCallback(w, j) then [[]] else ChildPlaces(w, j, Arity(j))
  }

  function ChildPlaces(w: World, j: Json, n: nat): seq<Path>
    requires n <= Arity(j)
    decreases j, n
  {
    if n == 0 then [] else ChildPlaces(w, j, n - 1) + Under(n - 1, Places(w, Child(j, n - 1)))
  }

  function Under(i: nat, ps: seq<Path>): (r: seq<Path>)
    ensures |r| == |ps| && forall k :: 0 <= k < |ps| ==> r[k] == [i] + ps[k]
  {
    seq(|ps|, k requires 0 <= k < |ps| => [i] + ps[k])
  }

  ghost predicate Ascending(ps: seq<Path>) { forall a, b :: 0 <= a < b < |ps| ==> Before(ps[a], ps[b]) }

  /** The list of events is right: complete, in document order, one event per place. */
  ghost predicate Listing(w: World, j: Json, ps: seq<Path>, es: seq<Event>) {
    |ps| == |es| && Ascending(ps)
    && (forall p :: p in ps <==> Outermost(w, j, p))
    && forall k :: 0 <= k < |ps| ==> Outermost(w, j, ps[k]) && es[k] == EventOf(w, At(w, j, ps[k]))
  }

  /** The same among the first n children of a node that is no callback itself. */
  ghost predicate ListingUpTo(w: World, j: Json, n: nat, ps: seq<Path>, es: seq<Event>) {
    |ps| == |es| && Ascending(ps)
    && (forall p :: p in ps <==> (p != [] && p[0] < n && Outermost(w, j, p)))
    && forall k :: 0 <= k < |ps| ==> Outermost(w, j, ps[k]) && es[k] == EventOf(w, At(w, j, ps[k]))
  }

  lemma ListingMore(w: World, j: Json, n: nat, ps: seq<Path>, es: seq<Event>, qs: seq<Path>, fs: seq<Event>)
    requires !IsCallback(w, j) && n < Arity(j)
    requires ListingUpTo(w, j, n, ps, es) && Listing(w, Child(j, n), qs, fs)
    ensures ListingUpTo(w, j, n + 1, ps + Under(n, qs), es + fs)
  {
    hide IsCallback, EventOf;
    var all := ps + Under(n, qs);
    forall k | 0 <= k < |all|
      ensures Outermost(w, j, all[k]) && (es + fs)[k] == EventOf(w, At(w, j, all[k]))
      ensures all[k] != [] && all[k][0] < n + 1
    {
      if k < |ps| {
        assert ps[k] in ps;
      } else {
        assert all[k][1..] == qs[k - |ps|];
      }
    }
    forall p: Path | p != [] && p[0] < n + 1 && Outermost(w, j, p)
      ensures p in all
    {
      if p[0] < n {
        assert p in ps;
      } else {
        assert p[1..] in qs;
        var k :| 0 <= k < |qs| && qs[k] == p[1..];
        assert all[|ps| + k] == [n] + p[1..] == p;
      }
    }
    forall a, b | 0 <= a < b < |all|
      ensures Before(all[a], all[b])
    {
      if b >= |ps| {
        if a < |ps| {
          assert ps[a] in ps;
        } else {
          assert all[a][1..] == qs[a - |ps|] && all[b][1..] == qs[b - |ps|];
        }
      }
    }
  }

  /** The recursion lists every outermost callback once, in document order, and nothing else. */
  lemma {:induction false} EventsListCallbacks(w: World, j: Json)
    ensures Listing(w, j, Places(w, j), Events(w, j))
    decreases j, Arity(j) + 1
  {
    hide IsCallback, EventOf;
    if !IsCallback(w, j) { ChildEventsListCallbacks(w, j, Arity(j)); }
  }

  lemma {:induction false} ChildEventsListCallbacks(w: World, j: Json, n: nat)
    requires !IsCallback(w, j) && n <= Arity(j)
    ensures ListingUpTo(w, j, n, ChildPlaces(w, j, n), ChildEvents(w, j, n))
    decreases j, n
  {
    hide IsCallback, EventOf;
    if n == 0 {
    } else {
      ChildEventsListCallbacks(w, j, n - 1);
      EventsListCallbacks(w, Child(j, n - 1));
      ListingMore(w, j, n - 1, ChildPlaces(w, j, n - 1), ChildEvents(w, j, n - 1),
                  Places(w, Child(j, n - 1)), Events(w, Child(j, n - 1)));
    }
  }

  /** The list that the recursive collector appends to. */
  class EventList {
    var items: seq<Event>

    constructor ()
      ensures items == []
    {
      items := [];
    }
  }

  method Collect(w: World, value: Json, events: EventList)
    modifies events
    ensures events.items == old(events.items) + Events(w, value)
    decreases value
  {
    hide IsCallback, EventOf;
    if IsCallback(w, value) {
      events.items := events.items + [EventOf(w, value)];
      return;
    }
    for i := 0 to Arity(value)
      invariant events.items == old(events.items) + ChildEvents(w, value, i)
    {
      Collect(w, Child(value, i), events);
    }
  }

  // ---------------------------------------------------------------- what the output can depend on

  /** Two values of `msgData` are told apart only by their kind and their set of keys. */
  predicate MsgAlike(a: Json, b: Json) {
    a.JObj? == b.JObj? && (a == JNull) == (b == JNull)
    && (a.JObj? ==> NormalizedKeys(a.entries) == NormalizedKeys(b.entries))
  }

  /** Two trees with callbacks at the same places, agreeing there on the request id and on
      which `msgData` keys there are. All other content may differ. */
  predicate Alike(w: World, a: Json, b: Json)
    decreases a, Arity(a) + 1
  {
    if IsCallback(w, a) || IsCallback(w, b) then
      IsCallback(w, a) && IsCallback(w, b)
      && RequestText(w, ValueForKey(a, "requestid")) == RequestText(w, ValueForKey(b, "requestid"))
      && MsgAlike(ValueForKey(a, "msgdata"), ValueForKey(b, "msgdata"))
    else Arity(a) == Arity(b) && ChildrenAlike(w, a, b, Arity(a))
  }

  predicate ChildrenAlike(w: World, a: Json, b: Json, n: nat)
    requires n <= Arity(a) && n <= Arity(b)
    decreases a, n
  {
    n == 0 || (ChildrenAlike(w, a, b, n - 1) && Alike(w, Child(a, n - 1), Child(b, n - 1)))
  }

  lemma {:induction false} OutputIgnoresTheRest(w: World, a: Json, b: Json)
    requires Alike(w, a, b)
    ensures Events(w, a) == Events(w, b)
    decreases a, Arity(a) + 1
  {
    hide IsCallback, ValueForKey, NormalizedKeys, RequestText;
    if !IsCallback(w, a) { ChildrenIgnoreTheRest(w, a, b, Arity(a)); }
  }

  lemma {:induction false} ChildrenIgnoreTheRest(w: World, a: Json, b: Json, n: nat)
    requires n <= Arity(a) && n <= Arity(b) && ChildrenAlike(w, a, b, n)
    ensures ChildEvents(w, a, n) == ChildEvents(w, b, n)
    decreases a, n
  {
    hide IsCallback, ValueForKey, NormalizedKeys, RequestText;
    if n == 0 {
    } else {
      ChildrenIgnoreTheRest(w, a, b, n - 1);
      OutputIgnoresTheRest(w, Child(a, n - 1), Child(b, n - 1));
    }
  }

  lemma {:induction false} FirstValueUpdated(entries: seq<Entry>, i: nat, v: Json, expected: string)
    requires i < |entries|
    ensures var updated := entries[i := Entry(entries[i].key, v)];
            if NormalizeKey(entries[i].key) != expected then
              FirstValue(updated, expected) == FirstValue(entries, expected)
            else
              FirstValue(updated, expected) == FirstValue(entries, expected)
              || (FirstValue(updated, expected) == Some(v)
                  && FirstValue(entries, expected) == Some(entries[i].value))
  {
    hide NormalizeKey;
    var n := |entries| - 1;
    var updated := entries[i := Entry(entries[i].key, v)];
    if i < n {
      FirstValueUpdated(entries[..n], i, v, expected);
      assert updated[..n] == entries[..n][i := Entry(entries[i].key, v)];
    } else {
      assert updated[..n] == entries[..n];
    }
  }

  /** Putting another object with the same keys under `msgData` leaves the output as it was. */
  lemma MsgDataValuesAreDropped(w: World, entries: seq<Entry>, i: nat, v: Json)
    requires IsCallback(w, JObj(entries)) && i < |entries| && NormalizeKey(entries[i].key) == "msgdata"
    requires MsgAlike(entries[i].value, v)
    ensures Events(w, JObj(entries[i := Entry(entries[i].key, v)])) == Events(w, JObj(entries))
  {
    hide NormalizeKey, FirstValue, NormalizedKeys, RequestText;
    FirstValueUpdated(entries, i, v, "cmd");
    FirstValueUpdated(entries, i, v, "requestid");
    FirstValueUpdated(entries, i, v, "msgdata");
    OutputIgnoresTheRest(w, JObj(entries), JObj(entries[i := Entry(entries[i].key, v)]));
  }
}
