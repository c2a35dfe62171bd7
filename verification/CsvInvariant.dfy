/** What every reachable group satisfies, and why each kind of write keeps it. */
module CsvInvariant {
  import opened Text
  import opened Decimals
  import opened CsvFields
  import opened CsvStore
  import opened CsvAppend
  import opened CsvLedger

  // ---------------------------------------------------------------- sizes

  predicate NoDup(s: seq<Path>) { s != [] ==> NoDup(s[..|s| - 1]) && s[|s| - 1] !in s[..|s| - 1] }

  ghost predicate ListingOk(g: Group) { NoDup(g.listing) && forall p :: p in g.listing <==> p in g.files }

  lemma {:induction false} ListedSizeOther(env: Env, g: Group, h: Group, p: Path, paths: seq<Path>)
    requires p !in paths && forall q :: q != p ==> Lookup(h, q) == Lookup(g, q)
    ensures ListedSize(env, h, paths) == ListedSize(env, g, paths)
  {
    if paths == [] {
    } else {
      var q := paths[|paths| - 1];
      assert Lookup(h, q) == Lookup(g, q);
      ListedSizeOther(env, g, h, p, paths[..|paths| - 1]);
    }
  }

  lemma {:induction false} ListedSizePut(env: Env, g: Group, h: Group, p: Path, paths: seq<Path>)
    requires NoDup(paths) && p in paths
    requires forall q :: q != p ==> Lookup(h, q) == Lookup(g, q)
    ensures ListedSize(env, h, paths) == ListedSize(env, g, paths) - SizeOf(env, g, p) + SizeOf(env, h, p)
  {
    var init, q := paths[..|paths| - 1], paths[|paths| - 1];
    if q == p {
      ListedSizeOther(env, g, h, p, init);
    } else {
      assert Lookup(h, q) == Lookup(g, q);
      ListedSizePut(env, g, h, p, init);
    }
  }

  /** Writing one file changes the total by exactly that file's growth. */
  lemma PutSize(env: Env, g: Group, p: Path, f: File)
    requires ListingOk(g)
    ensures ListingOk(Put(g, p, f))
    ensures TotalSize(env, Put(g, p, f)) == TotalSize(env, g) - SizeOf(env, g, p) + FileSize(env, f)
  {
    hide FileSize;
    var h := Put(g, p, f);
    if p in g.files {
      ListedSizePut(env, g, h, p, g.listing);
    } else {
      assert h.listing[..|h.listing| - 1] == g.listing;
      ListedSizeOther(env, g, h, p, g.listing);
    }
  }

  // ---------------------------------------------------------------- one dataset

  /** The event id of a row was derived from a request against this very version. */
  ghost predicate Seeded(env: Env, csvId: string, n: nat, row: Row) {
    exists seed: EventSeed :: seed.csvId == csvId && seed.version == n && env.eventId(seed) == row.eventId
  }

  ghost predicate RowsOk(env: Env, csvId: string, n: nat, fields: seq<Field>, rows: seq<Row>) {
    forall r :: r in rows ==> RowFits(r, fields) && Seeded(env, csvId, n, r)
  }

  /** Version n of a dataset is readable, unaltered since it was announced, and its rows fit it. */
  ghost predicate VersionOk(env: Env, g: Group, csvId: string, n: nat, hash: string) {
    && LoadSchema(env, g, csvId, n).Ok?
    && var s := LoadSchema(env, g, csvId, n).value;
    && env.schemaHash(s) == hash
    && Distinct(s.fields)
    && ReadRows(env, g, csvId, n, s.fields).Ok?
    && RowsOk(env, csvId, n, s.fields, ReadRows(env, g, csvId, n, s.fields).value)
  }

  function FieldsAt(env: Env, g: Group, csvId: string, n: nat): seq<Field> {
    match LoadSchema(env, g, csvId, n)
    case Ok(s) => s.fields
    case Err(_) => []
  }

  /** A proper extension: the old fields stay in place and at least one is added. */
  predicate Extends(old_: seq<Field>, new_: seq<Field>) { old_ < new_ }

  ghost predicate ChainOk(env: Env, g: Group, d: Dataset, n: nat)
    requires n <= |d.events|
  {
    n > 0 ==>
      && ChainOk(env, g, d, n - 1)
      && VersionOk(env, g, d.csvId, n, d.events[n - 1].schemaHash)
      && (n > 1 ==> Extends(FieldsAt(env, g, d.csvId, n - 1), FieldsAt(env, g, d.csvId, n)))
      && (d.preset.Ledger? ==> LEDGER_FIELDS <= FieldsAt(env, g, d.csvId, n))
  }

  predicate RowsProject(cal: Calendar, rows: seq<Row>, own: set<string>, latest: seq<Field>) {
    forall r :: r in rows ==> Projects(cal, r, own, latest)
  }

  /** Every row of the first n versions can be shown under the given fields. */
  predicate AllProject(env: Env, g: Group, csvId: string, n: nat, latest: seq<Field>) {
    n > 0 ==>
      && AllProject(env, g, csvId, n - 1, latest)
      && RowsProject(env.cal, RowsOf(g, csvId, n), Names(FieldsAt(env, g, csvId, n)), latest)
  }

  ghost predicate DatasetOk(env: Env, g: Group, csvId: string, d: Dataset) {
    && d.csvId == csvId
    && 1 <= d.latest <= MAX_VERSIONS_PER_DATASET
    && |d.events| == d.latest
    && ChainOk(env, g, d, d.latest)
    && AllProject(env, g, csvId, d.latest, FieldsAt(env, g, csvId, d.latest))
    && (d.preset.Ledger? ==> LedgerFilesOk(env, g, d))
  }

  /** The rows of all versions, in stored order, form a ledger in order. */
  predicate LedgerFilesOk(env: Env, g: Group, d: Dataset) {
    AllRows(env, g, d.csvId, d.latest).Ok?
    && LedgerOk(AllRows(env, g, d.csvId, d.latest).value) && AmountsInOrder(AllRows(env, g, d.csvId, d.latest).value)
  }

  // ---------------------------------------------------------------- one group

  /** A version that the catalog announces. */
  predicate Announced(logical: Logical, csvId: string, n: nat) {
    csvId in logical && 1 <= n <= logical[csvId].latest
  }

  /** Files that no reader reaches hold no rows. */
  ghost predicate OrphansEmpty(g: Group, logical: Logical) {
    forall csvId, n :: !Announced(logical, csvId, n) ==> RowsOf(g, csvId, n) == []
  }

  ghost predicate GroupOk(env: Env, g: Group) {
    && ListingOk(g)
    && TotalSize(env, g) <= MAX_GROUP_BYTES
    && CatalogPath in g.files && g.files[CatalogPath].CatalogFile?
    && CatalogBytes(env, CatalogOf(g)) <= MAX_FILE_BYTES
    && Replay(CatalogOf(g)).Ok?
    && LogicalOk(env, g, Replay(CatalogOf(g)).value)
  }

  ghost predicate LogicalOk(env: Env, g: Group, logical: Logical) {
    && |logical| <= MAX_DATASETS_PER_GROUP
    && OrphansEmpty(g, logical)
    && forall csvId :: csvId in logical ==> DatasetOk(env, g, csvId, logical[csvId])
  }

  // ---------------------------------------------------------------- frames

  /** Two groups hold the same files for the first n versions of a dataset. */
  ghost predicate SameVersions(g: Group, h: Group, csvId: string, n: nat) {
    n > 0 ==>
      && SameVersions(g, h, csvId, n - 1)
      && Lookup(g, SchemaPath(csvId, n)) == Lookup(h, SchemaPath(csvId, n))
      && Lookup(g, RowsPath(csvId, n)) == Lookup(h, RowsPath(csvId, n))
  }

  lemma VersionFrame(env: Env, g: Group, h: Group, csvId: string, n: nat)
    requires Lookup(g, SchemaPath(csvId, n)) == Lookup(h, SchemaPath(csvId, n))
    requires Lookup(g, RowsPath(csvId, n)) == Lookup(h, RowsPath(csvId, n))
    ensures LoadSchema(env, g, csvId, n) == LoadSchema(env, h, csvId, n)
    ensures FieldsAt(env, g, csvId, n) == FieldsAt(env, h, csvId, n)
    ensures RowsOf(g, csvId, n) == RowsOf(h, csvId, n)
    ensures forall fields :: ReadRows(env, g, csvId, n, fields) == ReadRows(env, h, csvId, n, fields)
    ensures forall hash :: VersionOk(env, g, csvId, n, hash) == VersionOk(env, h, csvId, n, hash)
  {
    hide RowsOk, Header, RowBytes, AllHexIds, DistinctIds, Distinct;
  }

  lemma {:induction false} ChainFrame(env: Env, g: Group, h: Group, d: Dataset, n: nat)
    requires n <= |d.events| && SameVersions(g, h, d.csvId, n)
    ensures ChainOk(env, g, d, n) == ChainOk(env, h, d, n)
    ensures AllRows(env, g, d.csvId, n) == AllRows(env, h, d.csvId, n)
    ensures LoadSchemas(env, g, d, n) == LoadSchemas(env, h, d, n)
    ensures n > 0 ==> FieldsAt(env, g, d.csvId, n) == FieldsAt(env, h, d.csvId, n)
  {
    hide VersionOk, FieldsAt, LoadSchema, ReadRows, Lookup, LEDGER_FIELDS;
    if n == 0 {
    } else {
      ChainFrame(env, g, h, d, n - 1);
      VersionFrame(env, g, h, d.csvId, n);
    }
  }

  lemma {:induction false} ProjectFrame(env: Env, g: Group, h: Group, csvId: string, n: nat, latest: seq<Field>)
    requires SameVersions(g, h, csvId, n)
    ensures AllProject(env, g, csvId, n, latest) == AllProject(env, h, csvId, n, latest)
  {
    hide RowsProject, FieldsAt, RowsOf, Lookup, Names;
    if n == 0 {
    } else {
      ProjectFrame(env, g, h, csvId, n - 1, latest);
      VersionFrame(env, g, h, csvId, n);
    }
  }

  /** A dataset is as good in any group that holds the same files for it. */
  lemma DatasetFrame(env: Env, g: Group, h: Group, csvId: string, d: Dataset)
    requires DatasetOk(env, g, csvId, d) && SameVersions(g, h, csvId, d.latest)
    ensures DatasetOk(env, h, csvId, d)
  {
    hide ChainOk, AllProject, SameVersions;
    ChainFrame(env, g, h, d, d.latest);
    ProjectFrame(env, g, h, csvId, d.latest, FieldsAt(env, g, csvId, d.latest));
  }

  lemma {:induction false} SameVersionsIfUntouched(g: Group, h: Group, csvId: string, n: nat)
    requires forall v: nat :: 1 <= v <= n ==>
               Lookup(g, SchemaPath(csvId, v)) == Lookup(h, SchemaPath(csvId, v))
               && Lookup(g, RowsPath(csvId, v)) == Lookup(h, RowsPath(csvId, v))
    ensures SameVersions(g, h, csvId, n)
  {
    if n == 0 {
    } else {
      SameVersionsIfUntouched(g, h, csvId, n - 1);
    }
  }

  // ---------------------------------------------------------------- reading a good chain

  lemma RowsOfVersion(env: Env, g: Group, csvId: string, n: nat, fields: seq<Field>)
    requires ReadRows(env, g, csvId, n, fields).Ok?
    ensures ReadRows(env, g, csvId, n, fields).value == RowsOf(g, csvId, n)
  {
    hide RowBytes, Header, AllHexIds, DistinctIds;
  }

  /** What a good chain says about its version n. */
  lemma {:induction false} ChainAt(env: Env, g: Group, d: Dataset, n: nat, m: nat)
    requires 1 <= n <= m <= |d.events| && ChainOk(env, g, d, m)
    ensures VersionOk(env, g, d.csvId, n, d.events[n - 1].schemaHash)
    ensures n > 1 ==> Extends(FieldsAt(env, g, d.csvId, n - 1), FieldsAt(env, g, d.csvId, n))
    ensures d.preset.Ledger? ==> LEDGER_FIELDS <= FieldsAt(env, g, d.csvId, n)
    decreases m
  {
    hide VersionOk, FieldsAt, LEDGER_FIELDS, Extends;
    if n == m {
    } else {
      ChainAt(env, g, d, n, m - 1);
    }
  }

  lemma {:induction false} ChainPrefix(env: Env, g: Group, d: Dataset, n: nat, m: nat)
    requires n <= m <= |d.events| && ChainOk(env, g, d, m)
    ensures ChainOk(env, g, d, n)
    decreases m
  {
    hide VersionOk, FieldsAt, LEDGER_FIELDS, Extends;
    if n == m {
    } else {
      ChainPrefix(env, g, d, n, m - 1);
    }
  }

  /** Every reader of a good chain succeeds. */
  lemma {:induction false} ChainReads(env: Env, g: Group, d: Dataset, n: nat)
    requires n <= |d.events| && ChainOk(env, g, d, n)
    ensures LoadSchemas(env, g, d, n).Ok? && |LoadSchemas(env, g, d, n).value| == n
    ensures AllRows(env, g, d.csvId, n).Ok?
    ensures n > 0 ==>
      LoadSchema(env, g, d.csvId, n).Ok?
      && LoadSchemas(env, g, d, n).value[n - 1] == LoadSchema(env, g, d.csvId, n).value
      && AllRows(env, g, d.csvId, n).value == AllRows(env, g, d.csvId, n - 1).value + RowsOf(g, d.csvId, n)
      && AllRows(env, g, d.csvId, n - 1).Ok?
  {
    hide LoadSchema, ReadRows, RowsOk, Distinct, Extends, FieldsAt, LEDGER_FIELDS, RowsOf;
    if n == 0 {
    } else {
      ChainReads(env, g, d, n - 1);
      RowsOfVersion(env, g, d.csvId, n, LoadSchema(env, g, d.csvId, n).value.fields);
    }
  }

  /** A chain only looks at the first n events of its dataset. */
  lemma {:induction false} ChainOfPrefix(env: Env, g: Group, d: Dataset, d': Dataset, n: nat)
    requires n <= |d.events| && d.events <= d'.events && d.csvId == d'.csvId && d.preset == d'.preset
    requires ChainOk(env, g, d, n)
    ensures ChainOk(env, g, d', n)
  {
    hide VersionOk, FieldsAt, LEDGER_FIELDS, Extends;
    if n == 0 {
    } else {
      ChainOfPrefix(env, g, d, d', n - 1);
    }
  }

  // ---------------------------------------------------------------- writing a version

  /** `h` differs from `g` at most at the two files of one version, and never in a file
      that `g` already has. */
  ghost predicate OnlyAdds(g: Group, h: Group, csvId: string, n: nat) {
    && (forall p :: p != SchemaPath(csvId, n) && p != RowsPath(csvId, n) ==> Lookup(h, p) == Lookup(g, p))
    && RowsOf(h, csvId, n) == RowsOf(g, csvId, n)
  }

  lemma CreateSize(env: Env, g: Group, p: Path, f: File)
    requires ListingOk(g)
    ensures ListingOk(CreateFile(g, p, f))
    ensures TotalSize(env, CreateFile(g, p, f)) <= TotalSize(env, g) + FileSize(env, f)
  {
    hide FileSize, ListedSize, ListingOk;
    PutSize(env, g, p, f);
  }

  lemma WriteSizes(env: Env, g: Group, s: Schema, crash: Crash)
    requires ListingOk(g) && TotalSize(env, g) <= MAX_GROUP_BYTES
    ensures ListingOk(WriteVersion(env, g, s, crash).0)
    ensures TotalSize(env, WriteVersion(env, g, s, crash).0) <= MAX_GROUP_BYTES
  {
    hide TotalSize, ListingOk, CreateFile, LoadSchema, ReadRows, Header;
    var g1 := CreateFile(g, SchemaPath(s.csvId, s.version), SchemaFile(s));
    CreateSize(env, g, SchemaPath(s.csvId, s.version), SchemaFile(s));
    CreateSize(env, g1, RowsPath(s.csvId, s.version), RowsFile(Header(s.fields), []));
  }

  lemma WriteFiles(env: Env, g: Group, s: Schema, crash: Crash)
    ensures OnlyAdds(g, WriteVersion(env, g, s, crash).0, s.csvId, s.version)
    ensures WriteVersion(env, g, s, crash).1.None? ==>
              var h := WriteVersion(env, g, s, crash).0;
              LoadSchema(env, h, s.csvId, s.version).Ok?
              && env.schemaHash(LoadSchema(env, h, s.csvId, s.version).value) == env.schemaHash(s)
              && ReadRows(env, h, s.csvId, s.version, LoadSchema(env, h, s.csvId, s.version).value.fields).Ok?
  {
    hide TotalSize, LoadSchema, ReadRows, Header;
  }

  lemma UnannouncedFrame(g: Group, h: Group, logical: Logical, csvId: string, n: nat, other: string)
    requires OnlyAdds(g, h, csvId, n) && !Announced(logical, csvId, n) && other in logical
    ensures SameVersions(g, h, other, logical[other].latest)
  {
    hide SameVersions, RowsOf;
    SameVersionsIfUntouched(g, h, other, logical[other].latest);
  }

  lemma OrphansStayEmpty(g: Group, h: Group, logical: Logical, csvId: string, n: nat)
    requires OrphansEmpty(g, logical) && OnlyAdds(g, h, csvId, n)
    ensures OrphansEmpty(h, logical)
  {
    forall id, v | !Announced(logical, id, v)
      ensures RowsOf(h, id, v) == []
    {
      if id != csvId || v != n { assert Lookup(h, RowsPath(id, v)) == Lookup(g, RowsPath(id, v)); }
    }
  }

  /** Files of a version that the catalog does not announce change nothing that is readable. */
  lemma LogicalKept(env: Env, g: Group, h: Group, logical: Logical, csvId: string, n: nat)
    requires LogicalOk(env, g, logical) && OnlyAdds(g, h, csvId, n) && !Announced(logical, csvId, n)
    ensures LogicalOk(env, h, logical)
  {
    hide DatasetOk, OnlyAdds, Announced, OrphansEmpty, SameVersions;
    OrphansStayEmpty(g, h, logical, csvId, n);
    forall other | other in logical
      ensures DatasetOk(env, h, other, logical[other])
    {
      UnannouncedFrame(g, h, logical, csvId, n, other);
      DatasetFrame(env, g, h, other, logical[other]);
    }
  }

  lemma SameCatalog(g: Group, h: Group, csvId: string, n: nat)
    requires OnlyAdds(g, h, csvId, n)
    ensures Lookup(h, CatalogPath) == Lookup(g, CatalogPath) && CatalogOf(h) == CatalogOf(g)
    ensures CatalogPath in h.files <==> CatalogPath in g.files
    ensures CatalogPath in h.files ==> h.files[CatalogPath] == g.files[CatalogPath]
  {
    hide RowsOf;
    assert Lookup(h, CatalogPath) == Lookup(g, CatalogPath);
  }

  /** Writing the files of an unannounced version keeps the group in order, crash or not. */
  lemma WriteKeeps(env: Env, g: Group, s: Schema, crash: Crash)
    requires GroupOk(env, g) && !Announced(Replay(CatalogOf(g)).value, s.csvId, s.version)
    ensures GroupOk(env, WriteVersion(env, g, s, crash).0)
    ensures CatalogOf(WriteVersion(env, g, s, crash).0) == CatalogOf(g)
    ensures OnlyAdds(g, WriteVersion(env, g, s, crash).0, s.csvId, s.version)
  {
    hide WriteVersion, LogicalOk, Announced, OnlyAdds, TotalSize, ListingOk, Replay, CatalogBytes;
    var h := WriteVersion(env, g, s, crash).0;
    WriteSizes(env, g, s, crash);
    WriteFiles(env, g, s, crash);
    SameCatalog(g, h, s.csvId, s.version);
    LogicalKept(env, g, h, Replay(CatalogOf(g)).value, s.csvId, s.version);
  }
}
