/** What a second and a third pass of the sanitizer do to its own output. */
module SanitizerPasses {
  import opened Text
  import opened JsonTree
  import opened Sanitizer

  // ---------------------------------------------------------------- the output as JSON

  function Field(name: string, v: Json): Entry { Entry(Key.Text(name), v) }

  function PresenceJson(p: Option<Presence>): Json {
    match p
    case None => JObj([])
    case Some(p) => JObj([
      Field("cloud_url", JBool(p.cloudUrl)), Field("file_aes_key", JBool(p.aesKey)),
      Field("file_id", JBool(p.fileId)), Field("file_md5", JBool(p.md5)),
      Field("file_size", JBool(p.size)), Field("filename", JBool(p.name))])
  }

  function SummaryJson(s: Summary): Json {
    JObj([
      Field("field_presence", PresenceJson(s.presence)), Field("msg_data_object", JBool(s.isObject)),
      Field("msg_data_present", JBool(s.present)), Field("required_fields_present", JBool(s.required)),
      Field("unknown_field_count", JInt(s.unknown))])
  }

  function RequestJson(request: Option<string>): Json {
    match request case Some(digest) => JStr("sha256:" + digest) case None => JNull
  }

  function EventJson(e: Event): Json {
    JObj([
      Field("cmd", JInt(COMMAND)), Field("credentials_redacted", JBool(true)),
      Field("msg_data_summary", SummaryJson(e.summary)), Field("request_id_sha256", RequestJson(e.request))])
  }

  function EventsJson(es: seq<Event>): (r: seq<Json>)
    ensures |r| == |es| && forall i :: 0 <= i < |es| ==> r[i] == EventJson(es[i])
  {
    seq(|es|, i requires 0 <= i < |es| => EventJson(es[i]))
  }

  function Payload(es: seq<Event>): Json {
    JObj([
      Field("callback_event_count", JInt(|es|)), Field("callback_events", JList(EventsJson(es))),
      Field("credentials_redacted", JBool(true)), Field("source", JStr("qiwe_async_callback"))])
  }

  // ---------------------------------------------------------------- reading an output back

  predicate IsHex(c: char) { '0' <= c <= '9' || 'a' <= c <= 'f' || 'A' <= c <= 'F' }

  predicate IsMarker(v: Json) {
    v.JStr? && "sha256:" <= v.s && |v.s| == 71 && forall i :: 7 <= i < 71 ==> IsHex(v.s[i])
  }

  function ReadRequest(v: Json): Option<string> {
    if IsMarker(v) then Some(Lower(v.s)[7..]) else None
  }

  function ReadPresence(v: Json): Presence {
    Presence(
      ValueForKey(v, "cloudurl") == JBool(true), ValueForKey(v, "fileaeskey") == JBool(true),
      ValueForKey(v, "fileid") == JBool(true), ValueForKey(v, "filemd5") == JBool(true),
      ValueForKey(v, "filesize") == JBool(true), ValueForKey(v, "filename") == JBool(true))
  }

  function ReadSummary(v: Json): Summary {
    if !v.JObj? then MsgSummary(JNull)
    else
      var p := ReadPresence(ValueForKey(v, "fieldpresence"));
      var unknown := ValueForKey(v, "unknownfieldcount");
      Summary(Some(p), ValueForKey(v, "msgdataobject") == JBool(true), ValueForKey(v, "msgdatapresent") == JBool(true),
        Required(p), if unknown.JInt? && unknown.i > 0 then unknown.i else 0)
  }

  /** `_canonicalize_sanitized_callback_event` */
  function Canonical(w: World, j: Json): Option<Event> {
    if !IsCallback(w, j) then None
    else Some(Event(ReadRequest(ValueForKey(j, "requestidsha256")), ReadSummary(ValueForKey(j, "msgdatasummary"))))
  }

  function CanonicalAll(w: World, items: seq<Json>): seq<Event> {
    if items == [] then []
    else
      CanonicalAll(w, items[..|items| - 1]) +
      match Canonical(w, items[|items| - 1]) { case Some(e) => [e] case None => [] }
  }

  /** `dict.get` with an exact key; the keys of a dictionary are distinct. */
  function Get(j: Json, key: string): Json {
    if !j.JObj? then JNull
    else match Exact(j.entries, key) case Some(v) => v case None => JNull
  }

  function Exact(entries: seq<Entry>, key: string): Option<Json> {
    if entries == [] then None
    else
      var earlier := Exact(entries[..|entries| - 1], key);
      var last := entries[|entries| - 1];
      if earlier.Some? then earlier else if last.key == Key.Text(key) then Some(last.value) else None
  }

  predicate IsPayload(j: Json) {
    j.JObj? && Get(j, "source") == JStr("qiwe_async_callback") && Get(j, "credentials_redacted") == JBool(true)
    && Get(j, "callback_events").JList?
  }

  /** `_sanitize_qiwe_capture_payload`, without its flag. */
  function Sanitize(w: World, j: Json): Json {
    if IsPayload(j) then Payload(CanonicalAll(w, Get(j, "callback_events").items))
    else if Events(w, j) == [] then j
    else Payload(Events(w, j))
  }

  // ---------------------------------------------------------------- events that an output can hold

  predicate IsDigest(s: string) { |s| == 64 && forall c :: c in s ==> '0' <= c <= '9' || 'a' <= c <= 'f' }

  predicate GoodSummary(s: Summary) {
    s.unknown >= 0 && s.required == (s.presence.Some? && Required(s.presence.value))
  }

  predicate Good(e: Event) { (e.request.Some? ==> IsDigest(e.request.value)) && GoodSummary(e.summary) }

  predicate AllGood(es: seq<Event>) { forall i :: 0 <= i < |es| ==> Good(es[i]) }

  /** `int` of an int is itself, and the hash prints 64 lower-case digits. */
  ghost predicate Sound(w: World) {
    (forall i: int :: w.toInt(JInt(i)) == Some(i)) && (forall s: string :: IsDigest(w.sha(s)))
  }

  /** An empty presence dictionary becomes one that says false six times. */
  function Filled(e: Event): Event {
    var p := match e.summary.presence
             case Some(p) => p
             case None => Presence(false, false, false, false, false, false);
    e.(summary := e.summary.(presence := Some(p)))
  }

  function FilledAll(es: seq<Event>): (r: seq<Event>)
    ensures |r| == |es| && forall i :: 0 <= i < |es| ==> r[i] == Filled(es[i])
  {
    seq(|es|, i requires 0 <= i < |es| => Filled(es[i]))
  }

  // ---------------------------------------------------------------- looking fields up by name

  predicate IsName(s: string) { forall c :: c in s ==> '0' <= c <= '9' || 'a' <= c <= 'z' }

  lemma {:induction false} SquashKeeps(s: string)
    requires IsName(s)
    ensures Squash(s) == s
  {
    if s == [] {
    } else {
      var front := s[..|s| - 1];
      assert forall c :: c in front ==> c in s;
      SquashKeeps(front);
      assert s[|s| - 1] in s;
    }
  }

  /** Underscores drop out. */
  lemma {:induction false} SquashJoins(a: string, b: string)
    ensures Squash(a + b) == Squash(a) + Squash(b)
  {
    if b == [] {
      assert a + b == a;
    } else {
      SquashJoins(a, b[..|b| - 1]);
      assert (a + b)[..|a + b| - 1] == a + b[..|b| - 1];
    }
  }

  lemma SquashUnderscore(a: string, b: string)
    ensures Squash(a + "_" + b) == Squash(a) + Squash(b)
  {
    hide Squash;
    SquashJoins(a + "_", b);
    SquashJoins(a, "_");
    assert Squash("_") == [] by { OneUnderscore(); }
  }

  lemma OneUnderscore()
    ensures Squash("_") == []
  {
    assert "_"[..0] == [];
  }

  /** The first entry with the name decides. */
  lemma {:induction false} Found(entries: seq<Entry>, i: nat, name: string)
    requires i < |entries| && NormalizeKey(entries[i].key) == name
    requires forall k :: 0 <= k < i ==> NormalizeKey(entries[k].key) != name
    ensures FirstValue(entries, name) == Some(entries[i].value)
  {
    hide NormalizeKey;
    var n := |entries| - 1;
    if i < n { Found(entries[..n], i, name); } else { NotFound(entries[..n], name); }
  }

  lemma {:induction false} NotFound(entries: seq<Entry>, name: string)
    requires forall k :: 0 <= k < |entries| ==> NormalizeKey(entries[k].key) != name
    ensures FirstValue(entries, name) == None
  {
    hide NormalizeKey;
    if entries == [] {
    } else {
      NotFound(entries[..|entries| - 1], name);
    }
  }

  lemma Name2(a: string, b: string)
    requires IsName(a) && IsName(b)
    ensures Squash(a + "_" + b) == a + b
  {
    hide Squash, IsName;
    SquashUnderscore(a, b);
    SquashKeeps(a);
    SquashKeeps(b);
  }

  lemma Name3(a: string, b: string, c: string)
    requires IsName(a) && IsName(b) && IsName(c)
    ensures Squash(a + "_" + b + "_" + c) == a + b + c
  {
    hide Squash, IsName;
    SquashUnderscore(a + "_" + b, c);
    Name2(a, b);
    SquashKeeps(c);
  }

  lemma EventNames()
    ensures Squash("cmd") == "cmd"
    ensures Squash("credentials_redacted") == "credentialsredacted"
    ensures Squash("msg_data_summary") == "msgdatasummary"
  {
    hide Squash;
    SquashKeeps("cmd");
    Name2("credentials", "redacted");
    assert "credentials" + "_" + "redacted" == "credentials_redacted";
    assert "credentials" + "redacted" == "credentialsredacted";
    Name3("msg", "data", "summary");
    assert "msg" + "_" + "data" + "_" + "summary" == "msg_data_summary";
    assert "msg" + "data" + "summary" == "msgdatasummary";
  }

  lemma RequestName()
    ensures Squash("request_id_sha256") == "requestidsha256"
  {
    hide Squash;
    Name3("request", "id", "sha256");
    assert "request" + "_" + "id" + "_" + "sha256" == "request_id_sha256";
    assert "request" + "id" + "sha256" == "requestidsha256";
  }

  lemma MessageNames()
    ensures Squash("msg_data_object") == "msgdataobject"
    ensures Squash("msg_data_present") == "msgdatapresent"
  {
    hide Squash;
    Name3("msg", "data", "object");
    assert "msg" + "_" + "data" + "_" + "object" == "msg_data_object";
    assert "msg" + "data" + "object" == "msgdataobject";
    Name3("msg", "data", "present");
    assert "msg" + "_" + "data" + "_" + "present" == "msg_data_present";
    assert "msg" + "data" + "present" == "msgdatapresent";
  }

  lemma CountName()
    ensures Squash("unknown_field_count") == "unknownfieldcount"
  {
    hide Squash;
    Name3("unknown", "field", "count");
    assert "unknown" + "_" + "field" + "_" + "count" == "unknown_field_count";
    assert "unknown" + "field" + "count" == "unknownfieldcount";
  }

  lemma RequiredName()
    ensures Squash("required_fields_present") == "requiredfieldspresent"
  {
    hide Squash;
    Name3("required", "fields", "present");
    assert "required" + "_" + "fields" + "_" + "present" == "required_fields_present";
    assert "required" + "fields" + "present" == "requiredfieldspresent";
  }

  lemma FieldName()
    ensures Squash("field_presence") == "fieldpresence"
  {
    hide Squash;
    Name2("field", "presence");
    assert "field" + "_" + "presence" == "field_presence";
    assert "field" + "presence" == "fieldpresence";
  }

  lemma PresenceNames()
    ensures Squash("cloud_url") == "cloudurl"
    ensures Squash("file_aes_key") == "fileaeskey"
    ensures Squash("file_id") == "fileid"
    ensures Squash("file_md5") == "filemd5"
    ensures Squash("file_size") == "filesize"
    ensures Squash("filename") == "filename"
  {
    hide Squash;
    Name2("cloud", "url");
    assert "cloud" + "_" + "url" == "cloud_url" && "cloud" + "url" == "cloudurl";
    Name3("file", "aes", "key");
    assert "file" + "_" + "aes" + "_" + "key" == "file_aes_key" && "file" + "aes" + "key" == "fileaeskey";
    Name2("file", "id");
    assert "file" + "_" + "id" == "file_id" && "file" + "id" == "fileid";
    Name2("file", "md5");
    assert "file" + "_" + "md5" == "file_md5" && "file" + "md5" == "filemd5";
    Name2("file", "size");
    assert "file" + "_" + "size" == "file_size" && "file" + "size" == "filesize";
    SquashKeeps("filename");
  }

  // ---------------------------------------------------------------- one event, read back

  lemma EventLookups(e: Event)
    ensures ValueForKey(EventJson(e), "cmd") == JInt(COMMAND)
    ensures ValueForKey(EventJson(e), "msgdatasummary") == SummaryJson(e.summary)
    ensures ValueForKey(EventJson(e), "requestidsha256") == RequestJson(e.request)
  {
    hide Squash, FirstValue, SummaryJson, RequestJson;
    EventNames();
    RequestName();
    var entries := EventJson(e).entries;
    Found(entries, 0, "cmd");
    Found(entries, 2, "msgdatasummary");
    Found(entries, 3, "requestidsha256");
  }

  lemma SummaryLookups(s: Summary)
    ensures ValueForKey(SummaryJson(s), "fieldpresence") == PresenceJson(s.presence)
    ensures ValueForKey(SummaryJson(s), "msgdataobject") == JBool(s.isObject)
    ensures ValueForKey(SummaryJson(s), "msgdatapresent") == JBool(s.present)
    ensures ValueForKey(SummaryJson(s), "unknownfieldcount") == JInt(s.unknown)
  {
    hide Squash, FirstValue, PresenceJson;
    FieldName();
    MessageNames();
    CountName();
    RequiredName();
    var entries := SummaryJson(s).entries;
    Found(entries, 0, "fieldpresence");
    Found(entries, 1, "msgdataobject");
    Found(entries, 2, "msgdatapresent");
    Found(entries, 4, "unknownfieldcount");
  }

  lemma PresenceReadsBack(p: Presence)
    ensures ReadPresence(PresenceJson(Some(p))) == p
  {
    hide Squash, FirstValue;
    PresenceNames();
    var entries := PresenceJson(Some(p)).entries;
    Found(entries, 0, "cloudurl");
    Found(entries, 1, "fileaeskey");
    Found(entries, 2, "fileid");
    Found(entries, 3, "filemd5");
    Found(entries, 4, "filesize");
    Found(entries, 5, "filename");
  }

  lemma EmptyPresenceReadsBack()
    ensures ReadPresence(PresenceJson(None)) == Presence(false, false, false, false, false, false)
  {
    assert FirstValue([], "cloudurl") == None;
  }

  lemma SummaryReadsBack(s: Summary)
    requires GoodSummary(s)
    ensures ReadSummary(SummaryJson(s)) == Filled(Event(None, s)).summary
  {
    hide ValueForKey, PresenceJson, ReadPresence;
    SummaryLookups(s);
    assert SummaryJson(s).JObj?;
    match s.presence {
      case Some(p) => PresenceReadsBack(p);
      case None => EmptyPresenceReadsBack();
    }
  }

  lemma LowerFixes(s: string)
    requires forall i :: 0 <= i < |s| ==> !('A' <= s[i] <= 'Z')
    ensures Lower(s) == s
  {
  }

  lemma MarkerText(s: string, digest: string)
    requires s == "sha256:" + digest && IsDigest(digest)
    ensures IsMarker(JStr(s)) && s[7..] == digest
    ensures forall i :: 0 <= i < |s| ==> !('A' <= s[i] <= 'Z')
  {
    hide Lower;
    assert |s| == 71 && s[..7] == "sha256:";
    assert forall i :: 7 <= i < 71 ==> s[i] == digest[i - 7] && s[i] in digest;
  }

  lemma RequestReadsBack(digest: string)
    requires IsDigest(digest)
    ensures ReadRequest(JStr("sha256:" + digest)) == Some(digest)
  {
    hide Lower, IsMarker, IsDigest;
    var s := "sha256:" + digest;
    MarkerText(s, digest);
    LowerFixes(s);
  }

  /** Reading one event back changes it in one way only: an empty presence gets filled. */
  lemma EventReadsBack(w: World, e: Event)
    requires Sound(w) && Good(e)
    ensures Canonical(w, EventJson(e)) == Some(Filled(e))
  {
    hide ValueForKey, SummaryJson, ReadSummary, ReadRequest, IsDigest, GoodSummary;
    EventLookups(e);
    SummaryReadsBack(e.summary);
    if e.request.Some? {
      RequestReadsBack(e.request.value);
    } else {
      NoMarker();
    }
    assert w.toInt(JInt(COMMAND)) == Some(COMMAND);
  }

  lemma NoMarker()
    ensures ReadRequest(JNull) == None
  {
  }

  lemma {:induction false} AllReadBack(w: World, es: seq<Event>)
    requires Sound(w) && AllGood(es)
    ensures CanonicalAll(w, EventsJson(es)) == FilledAll(es)
  {
    hide Sound, Canonical, EventJson, Good, Filled;
    if es == [] {
    } else {
      var n := |es| - 1;
      AllReadBack(w, es[..n]);
      EventReadsBack(w, es[n]);
      assert EventsJson(es)[..n] == EventsJson(es[..n]);
      assert FilledAll(es) == FilledAll(es[..n]) + [Filled(es[n])];
    }
  }

  // ---------------------------------------------------------------- whole passes

  lemma {:induction false} ExactlyFound(entries: seq<Entry>, i: nat, name: string)
    requires i < |entries| && entries[i].key == Key.Text(name)
    requires forall k :: 0 <= k < i ==> entries[k].key != Key.Text(name)
    ensures Exact(entries, name) == Some(entries[i].value)
  {
    var n := |entries| - 1;
    if i < n { ExactlyFound(entries[..n], i, name); } else { ExactlyMissing(entries[..n], name); }
  }

  lemma {:induction false} ExactlyMissing(entries: seq<Entry>, name: string)
    requires forall k :: 0 <= k < |entries| ==> entries[k].key != Key.Text(name)
    ensures Exact(entries, name) == None
  {
    if entries == [] {
    } else {
      ExactlyMissing(entries[..|entries| - 1], name);
    }
  }

  lemma PayloadIsPayload(es: seq<Event>)
    ensures IsPayload(Payload(es)) && Get(Payload(es), "callback_events") == JList(EventsJson(es))
  {
    hide Exact, EventsJson;
    var entries := Payload(es).entries;
    ExactlyFound(entries, 1, "callback_events");
    ExactlyFound(entries, 2, "credentials_redacted");
    ExactlyFound(entries, 3, "source");
  }

  /** A pass over an output fills the empty presences and changes nothing else. */
  lemma PayloadReadsBack(w: World, es: seq<Event>)
    requires Sound(w) && AllGood(es)
    ensures Sanitize(w, Payload(es)) == Payload(FilledAll(es))
  {
    hide Sound, CanonicalAll, Payload, IsPayload, Good, EventsJson, FilledAll, Get;
    PayloadIsPayload(es);
    AllReadBack(w, es);
  }

  /** The events that a pass over the value writes, or None when it hands the value back. */
  function Output(w: World, j: Json): Option<seq<Event>> {
    if IsPayload(j) then Some(CanonicalAll(w, Get(j, "callback_events").items))
    else if Events(w, j) == [] then None
    else Some(Events(w, j))
  }

  lemma ReadRequestIsGood(v: Json)
    requires ReadRequest(v).Some?
    ensures IsDigest(ReadRequest(v).value)
  {
    hide Lower;
    var s := v.s;
    assert forall i :: 7 <= i < 71 ==> IsHex(s[i]) && Lower(s)[i] == LowerChar(s[i]);
    assert forall i :: 0 <= i < 64 ==> Lower(s)[7..][i] == LowerChar(s[i + 7]);
  }

  lemma CanonicalIsGood(w: World, j: Json)
    requires Canonical(w, j).Some?
    ensures Good(Canonical(w, j).value)
  {
    hide ValueForKey, ReadRequest, IsDigest, ReadPresence;
    var v := ValueForKey(j, "requestidsha256");
    if ReadRequest(v).Some? { ReadRequestIsGood(v); }
  }

  lemma {:induction false} CanonicalAllGood(w: World, items: seq<Json>)
    ensures AllGood(CanonicalAll(w, items))
  {
    hide Canonical, Good;
    if items == [] {
    } else {
      CanonicalAllGood(w, items[..|items| - 1]);
      var last := items[|items| - 1];
      if Canonical(w, last).Some? { CanonicalIsGood(w, last); }
    }
  }

  lemma EventsGood(w: World, j: Json)
    requires Sound(w)
    ensures AllGood(Events(w, j))
  {
    hide ValueForKey, Events, Places, IsDigest, NormalizedKeys, RequestText, Outermost, At, Ascending;
    EventsListCallbacks(w, j);
  }

  lemma OutputGood(w: World, j: Json)
    requires Sound(w) && Output(w, j).Some?
    ensures AllGood(Output(w, j).value)
  {
    hide Sound, CanonicalAll, Events, AllGood, Get;
    if IsPayload(j) { CanonicalAllGood(w, Get(j, "callback_events").items); } else { EventsGood(w, j); }
  }

  /** The second pass, whatever the value was. */
  lemma SecondPass(w: World, j: Json)
    requires Sound(w)
    ensures Sanitize(w, Sanitize(w, j)) ==
            match Output(w, j) { case Some(es) => Payload(FilledAll(es)) case None => j }
  {
    hide Sound, CanonicalAll, Events, AllGood, Get, Payload, FilledAll;
    if Output(w, j).Some? {
      OutputGood(w, j);
      PayloadReadsBack(w, Output(w, j).value);
    }
  }

  lemma FilledStaysGood(es: seq<Event>)
    requires AllGood(es)
    ensures AllGood(FilledAll(es)) && FilledAll(FilledAll(es)) == FilledAll(es)
  {
    hide IsDigest;
  }

  /** A third pass never changes anything. */
  lemma StableAfterTwo(w: World, j: Json)
    requires Sound(w)
    ensures Sanitize(w, Sanitize(w, Sanitize(w, j))) == Sanitize(w, Sanitize(w, j))
  {
    hide Sound, Sanitize, CanonicalAll, Events, AllGood, Get, Payload, FilledAll, IsPayload;
    SecondPass(w, j);
    match Output(w, j) {
      case Some(es) =>
        OutputGood(w, j);
        FilledStaysGood(es);
        PayloadReadsBack(w, FilledAll(es));
      case None =>
        assert Sanitize(w, j) == j by { Untouched(w, j); }
    }
  }

  lemma Untouched(w: World, j: Json)
    requires Output(w, j) == None
    ensures Sanitize(w, j) == j
  {
    hide Events, IsPayload;
  }

  /** Every callback carries an object where the pass looks for one. */
  ghost predicate Settled(w: World, j: Json) {
    if IsPayload(j) then
      forall i :: 0 <= i < |Get(j, "callback_events").items| ==>
        var item := Get(j, "callback_events").items[i];
        IsCallback(w, item) ==> ValueForKey(item, "msgdatasummary").JObj?
    else MessagesAreObjects(w, j)
  }

  ghost predicate MessagesAreObjects(w: World, j: Json) {
    forall p :: Outermost(w, j, p) ==> ValueForKey(At(w, j, p), "msgdata").JObj?
  }

  ghost predicate AllPresent(es: seq<Event>) { forall i :: 0 <= i < |es| ==> es[i].summary.presence.Some? }

  lemma {:induction false} CanonicalPresent(w: World, items: seq<Json>)
    ensures AllPresent(CanonicalAll(w, items)) <==>
            forall i :: 0 <= i < |items| ==> IsCallback(w, items[i]) ==> ValueForKey(items[i], "msgdatasummary").JObj?
  {
    hide IsCallback, ValueForKey, ReadRequest, ReadPresence;
    if items == [] {
    } else {
      var n := |items| - 1;
      CanonicalPresent(w, items[..n]);
      var front := CanonicalAll(w, items[..n]);
      assert forall i :: 0 <= i < n ==> items[..n][i] == items[i];
      match Canonical(w, items[n]) {
        case Some(e) => PresentSnoc(front, e);
        case None => assert front + [] == front;
      }
    }
  }

  lemma PresentSnoc(es: seq<Event>, e: Event)
    ensures AllPresent(es + [e]) <==> AllPresent(es) && e.summary.presence.Some?
  {
    assert forall i :: 0 <= i < |es| ==> (es + [e])[i] == es[i];
    assert (es + [e])[|es|] == e;
  }

  lemma EventsPresent(w: World, j: Json)
    ensures AllPresent(Events(w, j)) <==> MessagesAreObjects(w, j)
  {
    hide ValueForKey, Events, Places, NormalizedKeys, RequestText, Outermost, At, Ascending;
    EventsListCallbacks(w, j);
    var ps, es := Places(w, j), Events(w, j);
    forall p | AllPresent(es) && Outermost(w, j, p)
      ensures ValueForKey(At(w, j, p), "msgdata").JObj?
    {
      assert p in ps;
    }
    forall k | MessagesAreObjects(w, j) && 0 <= k < |es|
      ensures es[k].summary.presence.Some?
    {
      assert Outermost(w, j, ps[k]);
    }
  }

  lemma FillingShows(es: seq<Event>)
    ensures Payload(FilledAll(es)) == Payload(es) <==> AllPresent(es)
  {
    if AllPresent(es) {
      assert FilledAll(es) == es;
    } else {
      var i :| 0 <= i < |es| && es[i].summary.presence.None?;
      FillingOneShows(es[i]);
      assert EventsJson(es)[i] == EventJson(es[i]) != EventJson(Filled(es[i])) == EventsJson(FilledAll(es))[i];
      PayloadList(es);
      PayloadList(FilledAll(es));
    }
  }

  lemma PayloadList(es: seq<Event>)
    ensures Payload(es).entries[1].value == JList(EventsJson(es))
  {
  }

  lemma FillingOneShows(e: Event)
    requires e.summary.presence.None?
    ensures EventJson(e) != EventJson(Filled(e))
  {
    var f := Filled(e);
    assert |PresenceJson(e.summary.presence).entries| == 0 && |PresenceJson(f.summary.presence).entries| == 6;
    assert SummaryJson(e.summary).entries[0].value == PresenceJson(e.summary.presence);
    assert SummaryJson(f.summary).entries[0].value == PresenceJson(f.summary.presence);
    assert EventJson(e).entries[2].value == SummaryJson(e.summary);
    assert EventJson(f).entries[2].value == SummaryJson(f.summary);
  }

  /** One pass is enough exactly when every callback carries an object. */
  lemma OnePassIsEnough(w: World, j: Json)
    requires Sound(w)
    ensures Sanitize(w, Sanitize(w, j)) == Sanitize(w, j) <==> Settled(w, j)
  {
    hide Sound, CanonicalAll, Events, AllPresent, Get, Payload, FilledAll, IsCallback, ValueForKey, MessagesAreObjects;
    SecondPass(w, j);
    if IsPayload(j) {
      var items := Get(j, "callback_events").items;
      CanonicalPresent(w, items);
      FillingShows(CanonicalAll(w, items));
    } else {
      EventsPresent(w, j);
      if Events(w, j) == [] {
        NonePresent(w, j);
      } else {
        FillingShows(Events(w, j));
      }
    }
  }

  lemma NonePresent(w: World, j: Json)
    requires Events(w, j) == []
    ensures AllPresent(Events(w, j))
  {
  }
}
