/** Backup, activation and restore of the two profile files as one transaction. Every step may
    fail or be the last one before the process dies, before or after it took effect. */
module ProfileTx {
  import opened Text

  const PRIVATE := 384   // mode 0600

  datatype File = File(content: string, mode: int, uid: int, gid: int)

  /** `file_record` */
  datatype Record = Record(sha: string, mode: int, uid: int, gid: int)

  datatype Meta = Meta(config: Record, env: Record, activated: Option<(Record, Record)>)

  /** What the backup directory holds. */
  datatype Backups = Backups(config: Option<string>, env: Option<string>)

  /** The two files, the copies in the backup directory, and the metadata file. */
  datatype State = State(config: File, env: File, backups: Option<Backups>, metadata: Option<Meta>)

  datatype World = World(sha: string -> string)

  ghost predicate CollisionFree(w: World) { forall a: string, b: string :: w.sha(a) == w.sha(b) ==> a == b }

  function RecordOf(w: World, f: File): Record { Record(w.sha(f.content), f.mode, f.uid, f.gid) }

  /** A write that replaces a file at once: `os.replace` has happened or not, and the directory
      sync behind it may still raise. */
  datatype Effect = Done | FailsBefore | FailsAfter | DiesBefore | DiesAfter

  datatype Exit = Returned | Raised | RaisedRestored | Died

  predicate TakesEffect(e: Effect) { e == Done || e == FailsAfter || e == DiesAfter }

  function ExitOf(e: Effect): Exit {
    match e
    case Done => Returned
    case FailsBefore => Raised
    case FailsAfter => Raised
    case _ => Died
  }

  // ---------------------------------------------------------------- restore

  datatype RestoreFaults = RestoreFaults(config: Effect, env: Effect)

  /** `verify_originals` */
  predicate Original(w: World, s: State, data: Meta) {
    RecordOf(w, s.config) == data.config && RecordOf(w, s.env) == data.env
  }

  function FromBackup(content: string, r: Record): File { File(content, r.mode, r.uid, r.gid) }

  /** The copy is there and has the recorded hash. */
  predicate Matches(w: World, copy: Option<string>, r: Record) { copy.Some? && w.sha(copy.value) == r.sha }

  /** The second half of a restore. */
  function RestoreEnv(w: World, s: State, data: Meta, f: RestoreFaults): (State, Exit)
    requires s.backups.Some?
  {
    if !Matches(w, s.backups.value.env, data.env) then (s, Raised)
    else
      var t := if TakesEffect(f.env) then s.(env := FromBackup(s.backups.value.env.value, data.env)) else s;
      (t, if f.env == Done then (if Original(w, t, data) then Returned else Raised) else ExitOf(f.env))
  }

  /** `restore_files` */
  function RestoreFiles(w: World, s: State, data: Meta, f: RestoreFaults): (State, Exit) {
    if s.backups.None? || !Matches(w, s.backups.value.config, data.config) then (s, Raised)
    else
      var t := if TakesEffect(f.config) then s.(config := FromBackup(s.backups.value.config.value, data.config)) else s;
      if f.config == Done then RestoreEnv(w, t, data, f) else (t, ExitOf(f.config))
  }

  /** `restore` */
  function Restore(w: World, s: State, f: RestoreFaults): (State, Exit) {
    if s.metadata.None? then (s, Raised) else RestoreFiles(w, s, s.metadata.value, f)
  }

  // ---------------------------------------------------------------- activate

  datatype Candidate = Candidate(config: Option<string>, env: Option<string>)

  datatype ActivateFaults = ActivateFaults(env: Effect, config: Effect, metadata: Effect, undo: RestoreFaults)

  function Activated(content: string, r: Record): File { File(content, PRIVATE, r.uid, r.gid) }

  /** The exception path: restore, then raise again. */
  function Undo(w: World, s: State, data: Meta, f: ActivateFaults): (State, Exit) {
    var (t, x) := RestoreFiles(w, s, data, f.undo);
    (t, if x == Returned then RaisedRestored else x)
  }

  function WithMetadata(w: World, s: State, data: Meta): State {
    s.(metadata := Some(data.(activated := Some((RecordOf(w, s.config), RecordOf(w, s.env))))))
  }

  /** After a step inside the `try`: go on, undo, or be dead. */
  function ActivateMetadata(w: World, s: State, data: Meta, f: ActivateFaults): (State, Exit) {
    var t := if TakesEffect(f.metadata) then WithMetadata(w, s, data) else s;
    match ExitOf(f.metadata)
    case Returned => (t, Returned)
    case Died => (t, Died)
    case _ => Undo(w, t, data, f)
  }

  function ActivateConfig(w: World, s: State, data: Meta, content: string, f: ActivateFaults): (State, Exit) {
    var t := if TakesEffect(f.config) then s.(config := Activated(content, data.config)) else s;
    match ExitOf(f.config)
    case Returned => ActivateMetadata(w, t, data, f)
    case Died => (t, Died)
    case _ => Undo(w, t, data, f)
  }

  function ActivateEnv(w: World, s: State, data: Meta, c: Candidate, f: ActivateFaults): (State, Exit)
    requires c.config.Some? && c.env.Some?
  {
    var t := if TakesEffect(f.env) then s.(env := Activated(c.env.value, data.env)) else s;
    match ExitOf(f.env)
    case Returned => ActivateConfig(w, t, data, c.config.value, f)
    case Died => (t, Died)
    case _ => Undo(w, t, data, f)
  }

  /** `activate` */
  function Activate(w: World, s: State, c: Candidate, f: ActivateFaults): (State, Exit) {
    if s.metadata.None? || !Original(w, s, s.metadata.value) || c.config.None? || c.env.None? then (s, Raised)
    else ActivateEnv(w, s, s.metadata.value, c, f)
  }

  /** `verify_activated` */
  predicate VerifyActivated(w: World, s: State) {
    s.metadata.Some? && s.metadata.value.activated.Some?
    && s.metadata.value.activated.value == (RecordOf(w, s.config), RecordOf(w, s.env))
  }

  /** What a restore does depends on the recorded files only. */
  lemma RestoreIgnoresActivation(w: World, s: State, data: Meta, activated: Option<(Record, Record)>, f: RestoreFaults)
    ensures RestoreFiles(w, s, data.(activated := activated), f) == RestoreFiles(w, s, data, f)
  {
  }

  // ---------------------------------------------------------------- backup

  /** The files as another process may have left them, at three moments of a backup. */
  datatype Moment = Moment(config: File, env: File)

  datatype BackupFaults = BackupFaults(mkdir: Effect, config: Effect, env: Effect, metadata: Effect, cleanup: bool)

  /** The exception path removes the directory, as far as it can. */
  function Abandon(s: State, x: Exit, f: BackupFaults): (State, Exit) {
    (if x == Raised && f.cleanup then s.(backups := None) else s, x)
  }

  /** `backup`: record, copy, compare, write the metadata, look again. */
  function Backup(w: World, s: State, wantConfig: string, wantEnv: string, m0: Moment, m1: Moment, m2: Moment,
                  f: BackupFaults): (State, Exit)
  {
    var s0 := s.(config := m2.config, env := m2.env);
    if s.backups.Some? then (s0, Raised)
    else if f.mkdir != Done then
      (if TakesEffect(f.mkdir) then s0.(backups := Some(Backups(None, None))) else s0, ExitOf(f.mkdir))
    else
      var s1 := s0.(backups := Some(Backups(None, None)));
      var data := Meta(RecordOf(w, m0.config), RecordOf(w, m0.env), None);
      if data.config.sha != wantConfig || data.env.sha != wantEnv then Abandon(s1, Raised, f)
      else
        var s2 := if TakesEffect(f.config) then s1.(backups := Some(Backups(Some(m1.config.content), None))) else s1;
        if f.config != Done then Abandon(s2, ExitOf(f.config), f)
        else
          var copies := Backups(Some(m1.config.content), Some(m1.env.content));
          var s3 := if TakesEffect(f.env) then s2.(backups := Some(copies)) else s2;
          if f.env != Done then Abandon(s3, ExitOf(f.env), f)
          else if !Matches(w, copies.config, data.config) || !Matches(w, copies.env, data.env) then
            Abandon(s3, Raised, f)
          else
            var s4 := if TakesEffect(f.metadata) then s3.(metadata := Some(data)) else s3;
            if f.metadata != Done then Abandon(s4, ExitOf(f.metadata), f)
            else if !Original(w, s4, data) then Abandon(s4, Raised, f)
            else (s4, Returned)
  }

  // ---------------------------------------------------------------- the same, step by step

  class Profile {
    const w: World
    var config: File
    var env: File
    var backups: Option<Backups>
    var metadata: Option<Meta>

    ghost function Now(): State
      reads this
    {
      State(config, env, backups, metadata)
    }

    constructor (w: World, s: State)
      ensures this.w == w && Now() == s
    {
      this.w, config, env, backups, metadata := w, s.config, s.env, s.backups, s.metadata;
    }

    /** A return means copies and records of the reviewed files as they still are; a raise leaves
        no directory behind, if it could be removed, unless it is the creation of the directory
        itself that raises after it took effect. */
    method PerformBackup(wantConfig: string, wantEnv: string, m0: Moment, m1: Moment, m2: Moment, f: BackupFaults)
      returns (r: Exit)
      modifies this
      ensures (Now(), r) == Backup(w, old(Now()), wantConfig, wantEnv, m0, m1, m2, f)
      ensures CollisionFree(w) && r == Returned ==> Reviewed(w, Now(), m2, wantConfig, wantEnv)
      ensures CollisionFree(w) ==>
                (r == Returned <==> old(backups).None? && BackupUndisturbed(f)
                                    && ReviewedAndUnchanged(w, wantConfig, wantEnv, m0, m1, m2))
                && (r == Died <==> old(backups).None? && BackupDies(w, wantConfig, wantEnv, m0, m1, f))
                && r != RaisedRestored
      ensures r == Raised && old(backups).None? && f.cleanup ==> (backups.None? <==> f.mkdir != FailsAfter)
    {
      if CollisionFree(w) {
        BackupIsIntact(w, Now(), wantConfig, wantEnv, m0, m1, m2, f);
        BackupExits(w, Now(), wantConfig, wantEnv, m0, m1, m2, f);
      }
      hide Reviewed, ReviewedAndUnchanged, BackupUndisturbed, BackupDies;
      config, env := m2.config, m2.env;
      if backups.Some? { return Raised; }
      if TakesEffect(f.mkdir) { backups := Some(Backups(None, None)); }
      if f.mkdir != Done { return ExitOf(f.mkdir); }
      r := CopyAndRecord(wantConfig, wantEnv, m0, m1, f);
      if r == Raised && f.cleanup { backups := None; }
    }

    /** The `try` block of `backup`. */
    method CopyAndRecord(wantConfig: string, wantEnv: string, m0: Moment, m1: Moment, f: BackupFaults) returns (r: Exit)
      requires backups == Some(Backups(None, None))
      modifies this`backups, this`metadata
      ensures r != RaisedRestored
      ensures (if r == Raised && f.cleanup then Now().(backups := None) else Now(), r)
           == Backup(w, old(Now()).(backups := None), wantConfig, wantEnv, m0, m1, Moment(config, env),
                     f.(mkdir := Done))
    {
      var data := Meta(RecordOf(w, m0.config), RecordOf(w, m0.env), None);
      if data.config.sha != wantConfig || data.env.sha != wantEnv { return Raised; }
      if TakesEffect(f.config) { backups := Some(Backups(Some(m1.config.content), None)); }
      if f.config != Done { return ExitOf(f.config); }
      if TakesEffect(f.env) { backups := Some(Backups(Some(m1.config.content), Some(m1.env.content))); }
      if f.env != Done { return ExitOf(f.env); }
      if !Matches(w, backups.value.config, data.config) || !Matches(w, backups.value.env, data.env) { return Raised; }
      if TakesEffect(f.metadata) { metadata := Some(data); }
      if f.metadata != Done { return ExitOf(f.metadata); }
      if RecordOf(w, config) != data.config || RecordOf(w, env) != data.env { return Raised; }
      r := Returned;
    }

    /** With the metadata and copies of two originals, a return means that both are back, and no
        other way out puts a new configuration beside the old environment. */
    method PerformRestoreFiles(data: Meta, f: RestoreFaults) returns (r: Exit)
      modifies this`config, this`env
      ensures (Now(), r) == RestoreFiles(w, old(Now()), data, f)
      ensures forall o :: TxOk(w, old(Now()), o) && Describes(w, data, o) ==>
                TxOk(w, Now(), o) && (r == Returned ==> config == o.config && env == o.env)
      ensures f == RestoreFaults(Done, Done) && (exists o :: TxOk(w, old(Now()), o) && Describes(w, data, o)) ==>
                r == Returned
      ensures r == Returned <==> CopiesReadable(w, old(Now()), data) && f == RestoreFaults(Done, Done)
      ensures r == Died <==> RestoreDies(w, old(Now()), data, f)
      ensures r != RaisedRestored
    {
      hide TxOk;
      RestoreExits(w, Now(), data, f);
      forall o | TxOk(w, Now(), o) && Describes(w, data, o)
        ensures RestoreKept(w, Now(), o, data, f)
      {
        RestoreKeeps(w, Now(), o, data, f);
      }
      if backups.None? || !Matches(w, backups.value.config, data.config) { return Raised; }
      if TakesEffect(f.config) { config := FromBackup(backups.value.config.value, data.config); }
      if f.config != Done { return ExitOf(f.config); }
      if !Matches(w, backups.value.env, data.env) { return Raised; }
      if TakesEffect(f.env) { env := FromBackup(backups.value.env.value, data.env); }
      if f.env != Done { return ExitOf(f.env); }
      if RecordOf(w, config) != data.config || RecordOf(w, env) != data.env { return Raised; }
      r := Returned;
    }

    method PerformRestore(f: RestoreFaults) returns (r: Exit)
      modifies this`config, this`env
      ensures (Now(), r) == Restore(w, old(Now()), f)
      ensures r == Returned <==> metadata.Some? && CopiesReadable(w, old(Now()), metadata.value)
                                 && f == RestoreFaults(Done, Done)
    {
      if metadata.None? { return Raised; }
      r := PerformRestoreFiles(metadata.value, f);
    }

    /** Starting from backed up originals, a return means that the candidate is in place and
        verified, a failure that was restored means that both originals are. */
    method PerformActivate(c: Candidate, f: ActivateFaults) returns (r: Exit)
      modifies this
      ensures (Now(), r) == Activate(w, old(Now()), c, f)
      ensures CollisionFree(w) ==> forall o :: TxOk(w, old(Now()), o) ==>
                TxOk(w, Now(), o)
                && (r == Returned ==> VerifyActivated(w, Now()) && c.config.Some? && c.env.Some?
                                      && Both(Now(), o, c.config.value, c.env.value))
                && (r == RaisedRestored ==> config == o.config && env == o.env)
                && (r == Returned <==> Starts(old(Now()), o, c) && Undisturbed(f))
                && (r == RaisedRestored <==>
                      Starts(old(Now()), o, c) && Raises(f) && f.undo == RestoreFaults(Done, Done))
                && (r == Died <==> Starts(old(Now()), o, c) && (Dies(f) || (Raises(f) && UndoDies(f.undo))))
                && (!Starts(old(Now()), o, c) ==> Now() == old(Now()))
      ensures r == Returned <==> old(metadata).Some? && Original(w, old(Now()), old(metadata).value)
                                 && c.config.Some? && c.env.Some? && Undisturbed(f)
    {
      ActivateReturns(w, Now(), c, f);
      hide RestoreFiles, TxOk, Starts, Undisturbed, Raises, Dies, UndoDies;
      forall o | CollisionFree(w) && TxOk(w, Now(), o)
        ensures ActivateKept(w, Now(), o, c, f)
      {
        ActivateKeeps(w, Now(), o, c, f);
      }
      if metadata.None? { return Raised; }
      var data := metadata.value;
      if RecordOf(w, config) != data.config || RecordOf(w, env) != data.env { return Raised; }
      if c.config.None? || c.env.None? { return Raised; }
      ghost var metadata0 := data;
      if TakesEffect(f.env) { env := Activated(c.env.value, data.env); }
      var step := ExitOf(f.env);
      if step == Returned {
        if TakesEffect(f.config) { config := Activated(c.config.value, data.config); }
        step := ExitOf(f.config);
        if step == Returned {
          data := data.(activated := Some((RecordOf(w, config), RecordOf(w, env))));
          if TakesEffect(f.metadata) { metadata := Some(data); }
          step := ExitOf(f.metadata);
        }
      }
      if step != Raised { return step; }
      RestoreIgnoresActivation(w, Now(), metadata0, data.activated, f.undo);
      r := PerformRestoreFiles(data, f.undo);
      if r == Returned { r := RaisedRestored; }
    }
  }

  // ---------------------------------------------------------------- what the transaction keeps

  /** The metadata describes the originals, and the copies are theirs. */
  predicate Intact(w: World, s: State, o: Moment) {
    s.metadata.Some? && s.metadata.value.config == RecordOf(w, o.config) && s.metadata.value.env == RecordOf(w, o.env)
    && s.backups == Some(Backups(Some(o.config.content), Some(o.env.content)))
  }

  /** The files are those of the moment and have the reviewed digests, and the backup is theirs. */
  predicate Reviewed(w: World, s: State, m: Moment, wantConfig: string, wantEnv: string) {
    && Intact(w, s, m) && s.config == m.config && s.env == m.env
    && w.sha(m.config.content) == wantConfig && w.sha(m.env.content) == wantEnv
  }

  lemma SameRecord(w: World, a: File, b: File)
    requires CollisionFree(w) && RecordOf(w, a) == RecordOf(w, b)
    ensures a == b
  {
  }

  /** A backup that returns has copied the reviewed files, still as they are at the end. */
  lemma BackupIsIntact(w: World, s: State, wantConfig: string, wantEnv: string, m0: Moment, m1: Moment, m2: Moment,
                       f: BackupFaults)
    requires CollisionFree(w)
    ensures var (t, x) := Backup(w, s, wantConfig, wantEnv, m0, m1, m2, f);
            x == Returned ==> Reviewed(w, t, m2, wantConfig, wantEnv)
    ensures var (t, x) := Backup(w, s, wantConfig, wantEnv, m0, m1, m2, f);
            x == Raised && s.backups.None? && f.cleanup ==> (t.backups.None? <==> f.mkdir != FailsAfter)
  {
    hide CollisionFree;
    var (t, x) := Backup(w, s, wantConfig, wantEnv, m0, m1, m2, f);
    if x == Returned {
      SameRecord(w, m2.config, m0.config);
      SameRecord(w, m2.env, m0.env);
      SameContent(w, m1.config.content, m0.config.content);
      SameContent(w, m1.env.content, m0.env.content);
    }
  }

  /** The directory that is left when its creation raises afterwards makes every later backup
      fail, whatever it is asked for, and nothing removes it. */
  lemma LeftoverBlocks(w: World, s: State, wantConfig: string, wantEnv: string, m0: Moment, m1: Moment, m2: Moment,
                       f: BackupFaults)
    requires s.backups.None? && f.mkdir == FailsAfter
    ensures var (t, x) := Backup(w, s, wantConfig, wantEnv, m0, m1, m2, f);
            x == Raised && t.backups == Some(Backups(None, None))
            && forall config, env, n0, n1, n2, later ::
                 var (u, y) := Backup(w, t, config, env, n0, n1, n2, later);
                 y == Raised && u.backups == t.backups
  {
  }

  lemma SameContent(w: World, a: string, b: string)
    requires CollisionFree(w) && w.sha(a) == w.sha(b)
    ensures a == b
  {
  }

  /** The config is the original, or both files are those of one activation: a new config never
      stands beside the old env. */
  ghost predicate NeverAhead(s: State, o: Moment) {
    s.config == o.config || exists c: string, e: string :: Both(s, o, c, e)
  }

  predicate Both(s: State, o: Moment, c: string, e: string) {
    s.config == File(c, 384, o.config.uid, o.config.gid) && s.env == File(e, 384, o.env.uid, o.env.gid)
  }

  /** What every step keeps. */
  ghost predicate TxOk(w: World, s: State, o: Moment) { Intact(w, s, o) && NeverAhead(s, o) }

  /** The metadata records these originals. */
  predicate Describes(w: World, data: Meta, o: Moment) {
    data.config == RecordOf(w, o.config) && data.env == RecordOf(w, o.env)
  }

  /** What a restore does for the originals it has copies of. */
  ghost predicate RestoreKept(w: World, s: State, o: Moment, data: Meta, f: RestoreFaults) {
    var (t, x) := RestoreFiles(w, s, data, f);
    TxOk(w, t, o) && (x == Returned ==> t.config == o.config && t.env == o.env)
    && x != RaisedRestored && t.metadata == s.metadata
    && (f.config == Done && f.env == Done ==> x == Returned)
  }

  /** What an activation does to backed up originals. */
  ghost predicate ActivateKept(w: World, s: State, o: Moment, c: Candidate, f: ActivateFaults) {
    var (t, x) := Activate(w, s, c, f);
    TxOk(w, t, o)
    && (x == Returned ==> VerifyActivated(w, t) && c.config.Some? && c.env.Some?
                          && Both(t, o, c.config.value, c.env.value))
    && (x == RaisedRestored ==> t.config == o.config && t.env == o.env)
    && (x == Returned <==> Starts(s, o, c) && Undisturbed(f))
    && (x == RaisedRestored <==> Starts(s, o, c) && Raises(f) && f.undo == RestoreFaults(Done, Done))
    && (x == Died <==> Starts(s, o, c) && (Dies(f) || (Raises(f) && UndoDies(f.undo))))
    && (!Starts(s, o, c) ==> t == s)
  }

  /** The files are the originals and both candidates are there. */
  predicate Starts(s: State, o: Moment, c: Candidate) {
    s.config == o.config && s.env == o.env && c.config.Some? && c.env.Some?
  }

  /** The write raises, or is the last thing the process does. */
  predicate Raising(e: Effect) { e == FailsBefore || e == FailsAfter }

  predicate Dying(e: Effect) { e == DiesBefore || e == DiesAfter }

  /** Every write of the activation is done. */
  predicate Undisturbed(f: ActivateFaults) { f.env == Done && f.config == Done && f.metadata == Done }

  /** Some write raises, or is the last one, after those before it were done. */
  predicate Raises(f: ActivateFaults) {
    Raising(f.env) || (f.env == Done && (Raising(f.config) || (f.config == Done && Raising(f.metadata))))
  }

  predicate Dies(f: ActivateFaults) {
    Dying(f.env) || (f.env == Done && (Dying(f.config) || (f.config == Done && Dying(f.metadata))))
  }

  predicate UndoDies(f: RestoreFaults) { Dying(f.config) || (f.config == Done && Dying(f.env)) }

  /** The restore dies in a write that it gets to. */
  predicate RestoreDies(w: World, s: State, data: Meta, f: RestoreFaults) {
    s.backups.Some? && Matches(w, s.backups.value.config, data.config)
    && (Dying(f.config) || (f.config == Done && Matches(w, s.backups.value.env, data.env) && Dying(f.env)))
  }

  /** Every way out of a restore. */
  lemma RestoreExits(w: World, s: State, data: Meta, f: RestoreFaults)
    ensures var x := RestoreFiles(w, s, data, f).1;
            (x == Returned <==> CopiesReadable(w, s, data) && f == RestoreFaults(Done, Done))
            && (x == Died <==> RestoreDies(w, s, data, f)) && x != RaisedRestored
  {
  }

  /** Every way out of an undo from intact copies. */
  lemma UndoExits(w: World, s: State, o: Moment, data: Meta, f: ActivateFaults)
    requires Intact(w, s, o) && Describes(w, data, o)
    ensures var x := Undo(w, s, data, f).1;
            (x == RaisedRestored <==> f.undo == RestoreFaults(Done, Done)) && (x == Died <==> UndoDies(f.undo))
            && x != Returned
  {
    hide RestoreFiles;
    RestoreExits(w, s, data, f.undo);
  }

  /** Backed up or not: an activation returns exactly if the files are as recorded, both candidates
      are there and every write is done. */
  lemma ActivateReturns(w: World, s: State, c: Candidate, f: ActivateFaults)
    ensures Activate(w, s, c, f).1 == Returned <==>
              s.metadata.Some? && Original(w, s, s.metadata.value) && c.config.Some? && c.env.Some? && Undisturbed(f)
  {
    hide RestoreFiles;
  }

  // ---------------------------------------------------------------- every way out of a backup

  predicate BackupUndisturbed(f: BackupFaults) {
    f.mkdir == Done && f.config == Done && f.env == Done && f.metadata == Done
  }

  /** The files have the reviewed digests and nobody changes them. */
  predicate ReviewedAndUnchanged(w: World, wantConfig: string, wantEnv: string, m0: Moment, m1: Moment, m2: Moment) {
    && w.sha(m0.config.content) == wantConfig && w.sha(m0.env.content) == wantEnv
    && Copied(m0, m1) && m2 == m0
  }

  /** What is copied is what was recorded. */
  predicate Copied(m0: Moment, m1: Moment) {
    m1.config.content == m0.config.content && m1.env.content == m0.env.content
  }

  predicate BackupDies(w: World, wantConfig: string, wantEnv: string, m0: Moment, m1: Moment, f: BackupFaults) {
    Dying(f.mkdir)
    || (f.mkdir == Done && w.sha(m0.config.content) == wantConfig && w.sha(m0.env.content) == wantEnv
        && (Dying(f.config)
            || (f.config == Done
                && (Dying(f.env) || (f.env == Done && Copied(m0, m1) && Dying(f.metadata))))))
  }

  /** An undisturbed backup of unchanged files with the reviewed digests returns, and no other does. */
  lemma BackupExits(w: World, s: State, wantConfig: string, wantEnv: string, m0: Moment, m1: Moment, m2: Moment,
                    f: BackupFaults)
    requires CollisionFree(w)
    ensures var (t, x) := Backup(w, s, wantConfig, wantEnv, m0, m1, m2, f);
            (x == Returned <==>
               s.backups.None? && BackupUndisturbed(f) && ReviewedAndUnchanged(w, wantConfig, wantEnv, m0, m1, m2))
            && (x == Died <==> s.backups.None? && BackupDies(w, wantConfig, wantEnv, m0, m1, f))
            && x != RaisedRestored
            && (x == Returned ==>
                  t == State(m2.config, m2.env, Some(Backups(Some(m2.config.content), Some(m2.env.content))),
                             Some(Meta(RecordOf(w, m2.config), RecordOf(w, m2.env), None))))
  {
    hide CollisionFree;
    assert w.sha(m1.config.content) == w.sha(m0.config.content) <==> m1.config.content == m0.config.content by {
      SameContents(w, m1.config.content, m0.config.content);
    }
    assert w.sha(m1.env.content) == w.sha(m0.env.content) <==> m1.env.content == m0.env.content by {
      SameContents(w, m1.env.content, m0.env.content);
    }
    SameFiles(w, m2.config, m0.config);
    SameFiles(w, m2.env, m0.env);
  }

  lemma SameContents(w: World, a: string, b: string)
    requires CollisionFree(w)
    ensures w.sha(a) == w.sha(b) <==> a == b
  {
  }

  lemma SameFiles(w: World, a: File, b: File)
    requires CollisionFree(w)
    ensures RecordOf(w, a) == RecordOf(w, b) <==> a == b
  {
  }

  lemma RestoreKeeps(w: World, s: State, o: Moment, data: Meta, f: RestoreFaults)
    requires TxOk(w, s, o) && Describes(w, data, o)
    ensures RestoreKept(w, s, o, data, f)
  {
    var (t, x) := RestoreFiles(w, s, data, f);
    assert t.config == s.config ==> t.env == s.env || t.config == o.config;
    if t.config != o.config {
      var c, e :| Both(s, o, c, e);
      assert Both(t, o, c, e);
    }
  }

  lemma MetadataKeeps(w: World, s: State, o: Moment, data: Meta, c: string, e: string, f: ActivateFaults)
    requires Intact(w, s, o) && Both(s, o, c, e)
    requires data.config == RecordOf(w, o.config) && data.env == RecordOf(w, o.env)
    ensures var (t, x) := ActivateMetadata(w, s, data, f);
            TxOk(w, t, o) && (x == Returned ==> VerifyActivated(w, t) && Both(t, o, c, e))
            && (x == RaisedRestored ==> t.config == o.config && t.env == o.env)
            && ExitsAs(x, f.metadata == Done, Raising(f.metadata), Dying(f.metadata), f)
  {
    hide RestoreFiles, Undo;
    var t := if TakesEffect(f.metadata) then WithMetadata(w, s, data) else s;
    assert Both(t, o, c, e);
    RestoreKeeps(w, t, o, data, f.undo);
    UndoExits(w, t, o, data, f);
    UndoIs(w, t, data, f);
  }

  lemma ConfigKeeps(w: World, s: State, o: Moment, data: Meta, c: string, e: string, f: ActivateFaults)
    requires Intact(w, s, o) && s.config == o.config && s.env == File(e, PRIVATE, o.env.uid, o.env.gid)
    requires data.config == RecordOf(w, o.config) && data.env == RecordOf(w, o.env)
    ensures var (t, x) := ActivateConfig(w, s, data, c, f);
            TxOk(w, t, o) && (x == Returned ==> VerifyActivated(w, t) && Both(t, o, c, e))
            && (x == RaisedRestored ==> t.config == o.config && t.env == o.env)
            && ExitsAs(x, f.config == Done && f.metadata == Done,
                       Raising(f.config) || (f.config == Done && Raising(f.metadata)),
                       Dying(f.config) || (f.config == Done && Dying(f.metadata)), f)
  {
    hide RestoreFiles, ActivateMetadata, Undo;
    var t := if TakesEffect(f.config) then s.(config := Activated(c, data.config)) else s;
    if TakesEffect(f.config) {
      assert Both(t, o, c, e);
      MetadataKeeps(w, t, o, data, c, e, f);
    }
    RestoreKeeps(w, t, o, data, f.undo);
    UndoExits(w, t, o, data, f);
    UndoIs(w, t, data, f);
  }

  /** The ways out, given whether all writes from here on are done, one raises or one is the last. */
  predicate ExitsAs(x: Exit, done: bool, raises: bool, dies: bool, f: ActivateFaults) {
    && (x == Returned <==> done)
    && (x == RaisedRestored <==> raises && f.undo == RestoreFaults(Done, Done))
    && (x == Died <==> dies || (raises && UndoDies(f.undo)))
  }

  /** An undo is a restore. */
  lemma UndoIs(w: World, s: State, data: Meta, f: ActivateFaults)
    ensures Undo(w, s, data, f).0 == RestoreFiles(w, s, data, f.undo).0
    ensures Undo(w, s, data, f).1 == RaisedRestored && RestoreFiles(w, s, data, f.undo).1 != RaisedRestored ==>
              RestoreFiles(w, s, data, f.undo).1 == Returned
  {
  }

  /** Activation: a normal return satisfies `verify_activated` with the candidate in place; a
      failure whose own restore succeeded leaves both originals; nothing else breaks the pair. */
  lemma ActivateKeeps(w: World, s: State, o: Moment, c: Candidate, f: ActivateFaults)
    requires CollisionFree(w) && TxOk(w, s, o)
    ensures ActivateKept(w, s, o, c, f)
  {
    hide RestoreFiles, ActivateConfig, CollisionFree, Undo;
    SameFiles(w, s.config, o.config);
    SameFiles(w, s.env, o.env);
    if Original(w, s, s.metadata.value) && c.config.Some? && c.env.Some? {
      var data := s.metadata.value;
      var t := if TakesEffect(f.env) then s.(env := Activated(c.env.value, data.env)) else s;
      if TakesEffect(f.env) { ConfigKeeps(w, t, o, data, c.config.value, c.env.value, f); }
      RestoreKeeps(w, t, o, data, f.undo);
      UndoExits(w, t, o, data, f);
      UndoIs(w, t, data, f);
    }
  }

  // ---------------------------------------------------------------- all runs

  datatype Op = ActivateOp(c: Candidate, f: ActivateFaults) | RestoreOp(r: RestoreFaults)

  function Step(w: World, s: State, op: Op): State {
    match op
    case ActivateOp(c, f) => Activate(w, s, c, f).0
    case RestoreOp(r) => Restore(w, s, r).0
  }

  function Run(w: World, s: State, ops: seq<Op>): State {
    if ops == [] then s else Step(w, Run(w, s, ops[..|ops| - 1]), ops[|ops| - 1])
  }

  lemma {:induction false} RunKeeps(w: World, s: State, o: Moment, ops: seq<Op>)
    requires CollisionFree(w) && TxOk(w, s, o)
    ensures TxOk(w, Run(w, s, ops), o)
  {
    hide CollisionFree, Activate, RestoreFiles, TxOk;
    if ops == [] {
    } else {
      var t := Run(w, s, ops[..|ops| - 1]);
      RunKeeps(w, s, o, ops[..|ops| - 1]);
      match ops[|ops| - 1] {
        case ActivateOp(c, f) => ActivateKeeps(w, t, o, c, f);
        case RestoreOp(r) => IntactOf(w, t, o); RestoreKeeps(w, t, o, t.metadata.value, r);
      }
    }
  }

  lemma IntactOf(w: World, s: State, o: Moment)
    requires TxOk(w, s, o)
    ensures Intact(w, s, o)
  {
  }

  /** After any runs, cut off anywhere, one undisturbed restore brings back both originals:
      content, mode and owner. */
  lemma RestoreRecovers(w: World, s: State, o: Moment, ops: seq<Op>)
    requires CollisionFree(w) && Intact(w, s, o) && s.config == o.config
    ensures var (t, x) := Restore(w, Run(w, s, ops), RestoreFaults(Done, Done));
            x == Returned && t.config == o.config && t.env == o.env
  {
    hide CollisionFree, RestoreFiles, Run;
    RunKeeps(w, s, o, ops);
    var t := Run(w, s, ops);
    RestoreKeeps(w, t, o, t.metadata.value, RestoreFaults(Done, Done));
  }

  /** The copies needed for an undo. `activate` does not look for them before it starts. */
  predicate CopiesReadable(w: World, s: State, data: Meta) {
    s.backups.Some? && Matches(w, s.backups.value.config, data.config) && Matches(w, s.backups.value.env, data.env)
  }

  /** When any write of an activation raises and the undo itself meets no fault, the originals
      come back exactly if the copies are there and have the recorded hashes. */
  lemma UndoNeedsCopies(w: World, s: State, c: Candidate, f: ActivateFaults)
    requires CollisionFree(w) && s.metadata.Some? && Original(w, s, s.metadata.value)
    requires c.config.Some? && c.env.Some? && Raises(f) && f.undo == RestoreFaults(Done, Done)
    ensures Activate(w, s, c, f).1 == RaisedRestored <==> CopiesReadable(w, s, s.metadata.value)
    ensures Activate(w, s, c, f).1 == RaisedRestored ==>
              Activate(w, s, c, f).0.config == s.config && Activate(w, s, c, f).0.env == s.env
  {
    hide CollisionFree;
    var data := s.metadata.value;
    if CopiesReadable(w, s, data) {
      SameContent(w, s.backups.value.config.value, s.config.content);
      SameContent(w, s.backups.value.env.value, s.env.content);
    }
  }

  /** How the copies come to be missing: a backup whose metadata was written before the write
      raised is abandoned, its directory is removed, and the metadata stays. An activation then
      starts, and when it raises, the candidate's environment stays in place. */
  lemma AbandonedBackupMisleads(w: World, s: State, m: Moment, c: Candidate, f: ActivateFaults)
    requires s.backups.None? && c.config.Some? && c.env.Some? && f.env == FailsAfter
    ensures var (t, x) := Backup(w, s, w.sha(m.config.content), w.sha(m.env.content), m, m, m,
                                 BackupFaults(Done, Done, Done, FailsAfter, true));
            x == Raised && t.metadata.Some? && Original(w, t, t.metadata.value) && t.backups.None?
            && Activate(w, t, c, f) == (t.(env := Activated(c.env.value, t.metadata.value.env)), Raised)
  {
  }
}
