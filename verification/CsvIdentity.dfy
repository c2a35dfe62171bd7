/** What the id of a dataset stands for: a repeated create is answered with the dataset that was
    asked for, and with no other. */
module CsvIdentity {
  import opened Text
  import opened CsvFields
  import opened CsvMeaning
  import opened CsvStore
  import opened CsvAppend
  import opened CsvInvariant
  import opened CsvPreserve
  import opened CsvSteps
  import opened CsvReplay
  import opened CsvEffects
  import opened CsvCreated
  import opened CsvInterrupted

  /** Two requests stand for the same dataset if and only if they agree in chat, message, name,
      preset and fields; the actor, the description and the clock do not matter. */
  lemma SameDatasetSameRequest(env: Env, a: Call, b: Call)
    requires CollisionFree(env) && Screen(a).None? && CreatesDataset(a) && RequestedId(env, a).Some?
    requires Screen(b).None? && CreatesDataset(b) && RequestedId(env, b).Some?
    ensures RequestedId(env, a) == RequestedId(env, b) <==>
              a.ctx.chat == b.ctx.chat && a.ctx.message == b.ctx.message
              && Strip(Written(a.request.name)) == Strip(Written(b.request.name))
              && PresetFor(a) == PresetFor(b) && FieldsAsked(a) == FieldsAsked(b)
  {
    hide Screen, Strip, InitialFields, NameOf, PresetOf, PresetFor, Written, FieldsAsked;
    AskedMeans(a);
    AskedMeans(b);
    AsksFor(env, a);
    AsksFor(env, b);
    assert env.scope(a.ctx.chat) == env.scope(b.ctx.chat) <==> a.ctx.chat == b.ctx.chat;
  }

  // ---------------------------------------------------------------- over all runs

  /** The id of the dataset was derived from the message, name, preset and fields of its event. */
  ghost predicate Derived(env: Env, g: Group, e: CatalogEvent)
    requires e.DatasetCreated?
  {
    exists scope :: Stems(env, g, e, scope)
  }

  predicate Stems(env: Env, g: Group, e: CatalogEvent, scope: string)
    requires e.DatasetCreated?
  {
    e.csvId == env.datasetId(DatasetSeed(scope, e.messageId, e.name, e.preset, FieldsAt(env, g, e.csvId, 1)))
  }

  ghost predicate AllDerived(env: Env, g: Group) {
    forall e :: e in CatalogOf(g) && e.DatasetCreated? ==> Derived(env, g, e)
  }

  lemma {:induction false} EventIsListed(events: seq<CatalogEvent>, e: CatalogEvent)
    requires Replay(events).Ok? && e in events
    ensures e.csvId in Replay(events).value
  {
    hide IsHexId;
    var init, last := events[..|events| - 1], events[|events| - 1];
    assert events == init + [last];
    if e != last { EventIsListed(init, e); }
  }

  /** A listed dataset has its first event in the catalog, with its name and preset. */
  lemma {:induction false} FirstEvent(events: seq<CatalogEvent>, csvId: string)
    requires Replay(events).Ok? && csvId in Replay(events).value
    ensures var d := Replay(events).value[csvId];
            d.events != [] && d.events[0] in events && d.events[0].DatasetCreated? && d.events[0].csvId == csvId
            && d.events[0].name == d.name && d.events[0].preset == d.preset
  {
    hide IsHexId;
    var init, last := events[..|events| - 1], events[|events| - 1];
    assert events == init + [last];
    if csvId in Replay(init).value {
      FirstEvent(init, csvId);
      assert Replay(init).value[csvId].events[0] in events;
    }
  }

  lemma StillDerived(env: Env, g: Group, h: Group, e: CatalogEvent)
    requires GroupOk(env, g) && Grown(g, h) && e.DatasetCreated? && e in CatalogOf(g) && Derived(env, g, e)
    ensures Derived(env, h, e)
  {
    hide GroupOk, Replay, CatalogOf, Grown, LoadSchema;
    ReplayIsOk(env, g);
    EventIsListed(CatalogOf(g), e);
    FirstSchemaLoads(env, g, e.csvId);
    SchemaStays(env, g, h, e.csvId, 1);
    var scope :| Stems(env, g, e, scope);
    assert Stems(env, h, e, scope);
  }

  lemma NewIsDerived(env: Env, g: Group, call: Call)
    requires CollisionFree(env) && GroupOk(env, g) && Screen(call).None? && CreatesDataset(call)
    requires CatalogOf(InGroup(env, g, call).0) != CatalogOf(g)
    ensures var h := InGroup(env, g, call).0;
            OneMore(g, h) && NewEvent(g, h).DatasetCreated? && Derived(env, h, NewEvent(g, h))
  {
    hide GroupOk, Screen, CatalogOf, Strip, InGroup, InitialFields, NameOf, PresetOf, PresetFor, Written, FieldsAsked,
         LoadSchema, RowsOf, DatasetIn, DatasetAllowed, RequestedId, NewEvent, OneMore;
    DatasetIsStored(env, g, call);
    AskedMeans(call);
    AsksFor(env, call);
    var h := InGroup(env, g, call).0;
    var e := NewEvent(g, h);
    assert FieldsAt(env, h, e.csvId, 1) == FieldsAsked(call);
    assert Stems(env, h, e, env.scope(call.ctx.chat));
  }

  lemma OnlyOneNew(g: Group, h: Group, e: CatalogEvent)
    requires OneMore(g, h) && e in CatalogOf(h)
    ensures e in CatalogOf(g) || e == NewEvent(g, h)
  {
    var events := CatalogOf(h);
    var i :| 0 <= i < |events| && events[i] == e;
    if i < |CatalogOf(g)| { assert CatalogOf(g)[i] == events[i]; }
  }

  lemma AppendLeavesCatalog(env: Env, g: Group, call: Call)
    requires CollisionFree(env) && GroupOk(env, g) && Screen(call).None? && call.request.AppendRequest?
    ensures CatalogOf(InGroup(env, g, call).0) == CatalogOf(g)
  {
    hide GroupOk, Screen, InGroup, CleanId, LoadSchema, NewRow, CollisionFree, RowEventId, OverQuota, FindRow, RowsOf,
         AnswersWith, CatalogOf, DatasetIn, RowAdded;
    AppendCallEffect(env, g, call);
    var h := InGroup(env, g, call).0;
    if DatasetIn(g, CleanId(call.request.csvId)).Some? {
      var d := DatasetIn(g, CleanId(call.request.csvId)).value;
      forall row | RowAdded(g, h, d.csvId, d.latest, row)
        ensures CatalogOf(h) == CatalogOf(g)
      {
        RowLeavesCatalog(env, g, h, d, row);
      }
    }
  }

  lemma VersionIsNoDataset(env: Env, g: Group, call: Call, h: Group)
    requires call.request.CreateRequest? && VersionStored(env, g, call, h)
    ensures OneMore(g, h) && NewEvent(g, h).VersionCreated?
  {
    hide CatalogOf, Strip, LoadSchema, CleanId, VersionAllowed, DatasetIn, RowsOf, OneMore, NewEvent, VersionAsked;
  }

  lemma InGroupKeepsDerived(env: Env, g: Group, call: Call)
    requires CollisionFree(env) && GroupOk(env, g) && AllDerived(env, g) && Screen(call).None?
    ensures AllDerived(env, InGroup(env, g, call).0)
  {
    hide GroupOk, Screen, CatalogOf, InGroup, Derived, Grown, CreatesDataset, DatasetStored, VersionStored, NewEvent,
         OneMore;
    var h := InGroup(env, g, call).0;
    InGroupGrows(env, g, call);
    if call.request.AppendRequest? { AppendLeavesCatalog(env, g, call); }
    if CatalogOf(h) != CatalogOf(g) {
      CreateStores(env, g, call);
      if CreatesDataset(call) { NewIsDerived(env, g, call); } else { VersionIsNoDataset(env, g, call, h); }
    }
    forall e | e in CatalogOf(h) && e.DatasetCreated?
      ensures Derived(env, h, e)
    {
      if e in CatalogOf(g) { StillDerived(env, g, h, e); } else { OnlyOneNew(g, h, e); }
    }
  }

  ghost predicate GroupsDerived(env: Env, groups: Groups) {
    forall key :: key in groups ==> AllDerived(env, groups[key])
  }

  lemma NothingDerived(env: Env)
    ensures AllDerived(env, EMPTY_GROUP)
  {
  }

  /** In every run from an empty workspace. */
  lemma {:induction false} RunKeepsDerived(env: Env, calls: seq<Call>)
    requires CollisionFree(env)
    ensures AllOk(env, Run(env, map[], calls)) && GroupsDerived(env, Run(env, map[], calls))
  {
    hide AllOk, CollisionFree, Screen, InGroup, AllDerived, EMPTY_GROUP, GroupOk;
    if calls == [] {
      assert AllOk(env, map[]) by { NoGroups(env); }
    } else {
      var n := |calls| - 1;
      RunKeepsDerived(env, calls[..n]);
      var mid := Run(env, map[], calls[..n]);
      StepKeeps(env, mid, calls[n]);
      if Screen(calls[n]).None? {
        var key := env.scope(calls[n].ctx.chat);
        GroupOfOk(env, mid, key);
        NothingDerived(env);
        InGroupKeepsDerived(env, GroupOf(mid, key), calls[n]);
      }
    }
  }

  lemma NoGroups(env: Env)
    ensures AllOk(env, map[])
  {
  }

  /** A create of a dataset that is answered, new or repeated, is answered with a dataset of the
      requested name, preset and fields, created by the same message. */
  lemma AnsweredIsAsked(env: Env, g: Group, call: Call)
    requires CollisionFree(env) && GroupOk(env, g) && AllDerived(env, g)
    requires Screen(call).None? && CreatesDataset(call) && InGroup(env, g, call).1.Ok?
    ensures var h, r := InGroup(env, g, call).0, InGroup(env, g, call).1.value;
            r.DatasetResponse? && IsAsked(env, h, call, r.info.dataset)
  {
    hide GroupOk, Screen, CatalogOf, InGroup, AllDerived, Strip, InitialFields, NameOf, PresetOf, PresetFor, Written,
         FieldsAsked, LoadSchema, DatasetIn, RequestedId, CollisionFree, CreatesDataset, IsAsked, Accepted;
    var h := InGroup(env, g, call).0;
    InGroupKeeps(env, g, call);
    InGroupKeepsDerived(env, g, call);
    AnswerNamesRequest(env, g, call);
    DerivedIsAsked(env, h, call, InGroup(env, g, call).1.value.info.dataset);
  }

  /** The dataset has the name, preset, first fields and message of the request. */
  predicate IsAsked(env: Env, h: Group, call: Call, d: Dataset)
    requires call.request.CreateRequest?
  {
    && d.name == Strip(Written(call.request.name)) && d.preset == PresetFor(call)
    && FieldsAt(env, h, d.csvId, 1) == FieldsAsked(call)
    && d.events != [] && d.events[0].messageId == call.ctx.message
  }

  lemma DerivedIsAsked(env: Env, h: Group, call: Call, d: Dataset)
    requires CollisionFree(env) && GroupOk(env, h) && AllDerived(env, h) && Screen(call).None? && CreatesDataset(call)
    requires RequestedId(env, call) == Some(d.csvId) && DatasetIn(h, d.csvId) == Some(d)
    ensures IsAsked(env, h, call, d)
  {
    hide GroupOk, Screen, CatalogOf, Strip, InitialFields, NameOf, PresetOf, PresetFor, Written, FieldsAsked,
         LoadSchema, Replay, FieldsAt, RequestedId;
    AskedMeans(call);
    AsksFor(env, call);
    ReplayIsOk(env, h);
    FirstEvent(CatalogOf(h), d.csvId);
    var e := d.events[0];
    var scope :| Stems(env, h, e, scope);
  }

  /** The answer of a create is about the dataset of the requested id. */
  lemma AnswerNamesRequest(env: Env, g: Group, call: Call)
    requires CollisionFree(env) && GroupOk(env, g) && Screen(call).None? && CreatesDataset(call)
    requires InGroup(env, g, call).1.Ok?
    ensures var h, r := InGroup(env, g, call).0, InGroup(env, g, call).1.value;
            r.DatasetResponse? && RequestedId(env, call) == Some(r.info.dataset.csvId)
            && DatasetIn(h, r.info.dataset.csvId) == Some(r.info.dataset)
  {
    hide GroupOk, Screen, CatalogOf, Strip, InitialFields, NameOf, PresetOf, LoadSchemas, ReadLogical, Publish,
         AfterPublish, DatasetAnswer, NewDatasetId, DescriptionOf, CreateIn, Replay, Describes;
    ReplayIsOk(env, g);
    CreateInIs(env, g, Replay(CatalogOf(g)).value, call);
    CreateEffect(env, g, call);
    var id := RequestedId(env, call).value;
    if id in Replay(CatalogOf(g)).value {
      ShownAgain(env, g, id);
    } else {
      var h := InGroup(env, g, call).0;
      if CatalogOf(h) != CatalogOf(g) { DatasetIsStored(env, g, call); } else { AnsweredIsPublished(env, g, call); }
    }
  }

  /** A new dataset is answered only after it was announced. */
  lemma AnsweredIsPublished(env: Env, g: Group, call: Call)
    requires CollisionFree(env) && GroupOk(env, g) && Screen(call).None? && CreatesDataset(call)
    requires InGroup(env, g, call).1.Ok? && RequestedId(env, call).Some?
    requires DatasetIn(g, RequestedId(env, call).value).None?
    ensures CatalogOf(InGroup(env, g, call).0) != CatalogOf(g)
  {
    hide GroupOk, Screen, CatalogOf, Strip, InitialFields, NameOf, PresetOf, LoadSchemas, ReadLogical, Publish,
         AfterPublish, DatasetAnswer, NewDatasetId, DescriptionOf, CreateIn, Replay;
    ReplayIsOk(env, g);
    CreateInIs(env, g, Replay(CatalogOf(g)).value, call);
    var id := RequestedId(env, call).value;
    var fields := InitialFields(env, PresetOf(call), call.request.fields).value;
    var s := Schema(id, 1, NameOf(call), DescriptionOf(call), PresetOf(call), fields, call.times.schema, None);
    var e := DatasetCreated(id, 1, DescriptionOf(call), env.schemaHash(s), call.times.event, call.ctx.user,
                            call.ctx.userName, call.ctx.message, NameOf(call), PresetOf(call));
    PublishEffect(env, g, s, e, call.crash);
    LastEvent(CatalogOf(g), e);
  }

  /** So in every run, whatever happened before. */
  lemma AnsweredInRun(env: Env, calls: seq<Call>, call: Call)
    requires CollisionFree(env) && Screen(call).None? && CreatesDataset(call)
    requires Step(env, Run(env, map[], calls), call).1.Ok?
    ensures var (after, r) := Step(env, Run(env, map[], calls), call);
            r.value.DatasetResponse?
            && IsAsked(env, GroupOf(after, env.scope(call.ctx.chat)), call, r.value.info.dataset)
  {
    hide GroupOk, Screen, InGroup, AllDerived, CreatesDataset, IsAsked, CollisionFree, Run, AllOk, EMPTY_GROUP;
    RunKeepsDerived(env, calls);
    var key := env.scope(call.ctx.chat);
    var g := GroupOf(Run(env, map[], calls), key);
    GroupOfOk(env, Run(env, map[], calls), key);
    NothingDerived(env);
    AnsweredIsAsked(env, g, call);
  }
}
