/** Activation and rollback of dashboard releases: one service drop-in and, per release, a
    record of what the drop-in was before. Any step may fail, and the process may die. */
module Dashboard {
  import opened Text

  const SMOKE_ATTEMPTS := 12

  // ---------------------------------------------------------------- identities and units

  predicate IsHex(s: string, n: nat) {
    |s| == n && forall i :: 0 <= i < n ==> '0' <= s[i] <= '9' || 'a' <= s[i] <= 'f'
  }

  /** `render_unit`: the drop-in of one release. */
  function Render(commit: string, checksum: string): string { Head(commit, checksum) + (checksum + "\n") }

  function Head(commit: string, checksum: string): string {
    var core := "/var/lib/qintopia-hermes-core/releases/" + commit;
    var artifact := "/var/lib/qintopia-hermes-dashboard/releases/" + checksum;
    var command := core + "/runtime/venv/bin/python -I " + artifact + "/dashboard_launcher.py --artifact " + artifact
                   + " --manifest-sha256 ";
    Environment(core) + "ExecStartPre=\nExecStartPre=" + command + checksum
    + " --check\nExecStart=\nExecStart=" + command
  }

  function Environment(core: string): string {
    "[Service]\nUser=ubuntu\nGroup=ubuntu\n" + "WorkingDirectory=" + core + "/core\n"
    + "Environment=HOME=/home/ubuntu\n" + "Environment=PYTHONDONTWRITEBYTECODE=1\n"
  }

  /** Units of different releases differ: the checksum stands at the end of the text. */
  lemma UnitsDiffer(commit: string, a: string, other: string, b: string)
    requires IsHex(a, 64) && IsHex(b, 64) && Render(commit, a) == Render(other, b)
    ensures a == b
  {
    hide Render;
    UnitEndsWith(commit, a);
    UnitEndsWith(other, b);
  }

  lemma UnitEndsWith(commit: string, checksum: string)
    requires |checksum| == 64
    ensures var u := Render(commit, checksum); |u| >= 65 && u[|u| - 65..|u| - 1] == checksum
  {
    hide Head;
    Ends(Render(commit, checksum), checksum);
  }

  /** A text that ends with the checksum and a line break. */
  lemma Ends(u: string, checksum: string)
    requires |checksum| == 64 && |u| >= 65 && u[|u| - 65..] == checksum + "\n"
    ensures u[|u| - 65..|u| - 1] == checksum
  {
    var tail := u[|u| - 65..];
    assert tail[..64] == checksum;
    assert u[|u| - 65..|u| - 1] == tail[..64];
  }

  // ---------------------------------------------------------------- one run

  /** A text without carriage returns. */
  type Plain = s: string | '\r' !in s

  /** The core commit that a manifest pins, and the unit rendered for a release. */
  datatype World = World(commit: string -> Plain, unit: string -> Plain)

  ghost predicate Sound(w: World) { forall c: string :: IsHex(c, 64) ==> w.unit(c) == Render(w.commit(c), c) }

  /** A rendered unit is such a text. */
  lemma UnitIsPlain(commit: string, checksum: string)
    requires '\r' !in commit && IsHex(checksum, 64)
    ensures '\r' !in Render(commit, checksum)
  {
    assert '\r' !in checksum by { assert forall i :: 0 <= i < |checksum| ==> checksum[i] != '\r'; }
    hide IsHex;
    HeadIsPlain(commit, checksum);
  }

  lemma Joined(a: string, b: string)
    requires '\r' !in a && '\r' !in b
    ensures '\r' !in a + b
  {
  }

  lemma HeadIsPlain(commit: string, checksum: string)
    requires '\r' !in commit && '\r' !in checksum
    ensures '\r' !in Head(commit, checksum)
  {
    hide Environment;
    var core := "/var/lib/qintopia-hermes-core/releases/" + commit;
    var artifact := "/var/lib/qintopia-hermes-dashboard/releases/" + checksum;
    PathsArePlain(commit, checksum);
    var launcher := core + "/runtime/venv/bin/python -I " + artifact + "/dashboard_launcher.py --artifact " + artifact;
    LauncherIsPlain(core, artifact);
    var command := launcher + " --manifest-sha256 ";
    Joined(launcher, " --manifest-sha256 ");
    ServiceIsPlain(core, command, checksum);
  }

  lemma PathsArePlain(commit: string, checksum: string)
    requires '\r' !in commit && '\r' !in checksum
    ensures '\r' !in "/var/lib/qintopia-hermes-core/releases/" + commit
    ensures '\r' !in "/var/lib/qintopia-hermes-dashboard/releases/" + checksum
  {
    Joined("/var/lib/qintopia-hermes-core/releases/", commit);
    Joined("/var/lib/qintopia-hermes-dashboard/releases/", checksum);
  }

  lemma LauncherIsPlain(core: string, artifact: string)
    requires '\r' !in core && '\r' !in artifact
    ensures '\r' !in core + "/runtime/venv/bin/python -I " + artifact + "/dashboard_launcher.py --artifact " + artifact
  {
    Joined(core, "/runtime/venv/bin/python -I ");
    var start := core + "/runtime/venv/bin/python -I " + artifact;
    Joined(core + "/runtime/venv/bin/python -I ", artifact);
    Joined(start, "/dashboard_launcher.py --artifact ");
    Joined(start + "/dashboard_launcher.py --artifact ", artifact);
  }

  lemma ServiceIsPlain(core: string, command: string, checksum: string)
    requires '\r' !in core && '\r' !in command && '\r' !in checksum
    ensures '\r' !in Environment(core) + "ExecStartPre=\nExecStartPre=" + command + checksum
                     + " --check\nExecStart=\nExecStart=" + command
  {
    EnvironmentIsPlain(core);
    hide Environment;
    var pre, check := "ExecStartPre=\nExecStartPre=", " --check\nExecStart=\nExecStart=";
    assert '\r' !in pre && '\r' !in check;
    Joined(Environment(core), pre);
    Joined(Environment(core) + pre, command);
    Joined(Environment(core) + pre + command, checksum);
    Joined(Environment(core) + pre + command + checksum, check);
    Joined(Environment(core) + pre + command + checksum + check, command);
  }

  lemma EnvironmentIsPlain(core: string)
    requires '\r' !in core
    ensures '\r' !in Environment(core)
  {
    var user, home := "[Service]\nUser=ubuntu\nGroup=ubuntu\n", "Environment=HOME=/home/ubuntu\n";
    assert '\r' !in user && '\r' !in home;
    Joined(user, "WorkingDirectory=");
    Joined(user + "WorkingDirectory=", core);
    Joined(user + "WorkingDirectory=" + core, "/core\n");
    Joined(user + "WorkingDirectory=" + core + "/core\n", home);
    Joined(user + "WorkingDirectory=" + core + "/core\n" + home, "Environment=PYTHONDONTWRITEBYTECODE=1\n");
  }

  /** `records` holds what `previous.json` of a release says; `order` is the order in which the
      records were created. */
  datatype State = State(dropin: Option<string>, records: map<string, Option<string>>, order: seq<string>)

  /** A step is done, raises before it had an effect, or the process dies just before or after it. */
  datatype Effect = Done | Fails | DiesBefore | DiesAfter

  /** A smoke test passes, raises OSError or ValueError, raises something else, or the process dies. */
  datatype Smoke = Pass | Refused | Broken | Killed

  /** How the steps of one run turn out. `checks` covers the identity, the artifact and the
      acceptance flag, `install` the copy and the preflight. */
  datatype Faults = Faults(checks: bool, install: bool, writeRecord: Effect, writeUnit: Effect, restart: Effect,
                           smoke: nat -> Smoke, writeBack: Effect, restartBack: Effect)

  datatype Verdict = Blocked | Drift | Mismatch | AlreadyActive | Passed | Restored | RolledBack | Died

  /** Up to twelve smoke tests: Pass, Broken when the activation failed, or Killed. */
  function SmokeLoop(smoke: nat -> Smoke, attempt: nat): (r: Smoke)
    ensures r != Refused
    decreases SMOKE_ATTEMPTS - attempt
  {
    match smoke(attempt)
    case Pass => Pass
    case Killed => Killed
    case Broken => Broken
    case Refused => if attempt + 1 >= SMOKE_ATTEMPTS then Broken else SmokeLoop(smoke, attempt + 1)
  }

  /** Attempt k is the first that is not refused, and turns out like this. */
  predicate Decides(smoke: nat -> Smoke, k: nat, outcome: Smoke) {
    k < 12 && outcome != Refused && smoke(k) == outcome && forall j: nat :: j < k ==> smoke(j) == Refused
  }

  /** Twelve refusals, or another failure after refusals only. */
  ghost predicate SmokeFails(smoke: nat -> Smoke) {
    (forall k: nat :: k < 12 ==> smoke(k) == Refused) || exists k: nat :: Decides(smoke, k, Broken)
  }

  lemma {:induction false} SmokeMeans(smoke: nat -> Smoke, attempt: nat)
    requires attempt < 12 && forall j: nat :: j < attempt ==> smoke(j) == Refused
    ensures SmokeLoop(smoke, attempt) == Pass <==> exists k: nat :: Decides(smoke, k, Pass)
    ensures SmokeLoop(smoke, attempt) == Killed <==> exists k: nat :: Decides(smoke, k, Killed)
    ensures SmokeLoop(smoke, attempt) == Broken <==> SmokeFails(smoke)
    decreases 12 - attempt
  {
    if smoke(attempt) == Refused {
      if attempt < 11 { SmokeMeans(smoke, attempt + 1); }
    } else {
      assert Decides(smoke, attempt, smoke(attempt));
    }
  }

  /** A state change that may fail or be cut off by the death of the process. */
  function After<T>(e: Effect, before: T, after: T): T { if e == Done || e == DiesAfter then after else before }

  /** The drop-in as `read_text` gives it. */
  function Read(content: Option<string>): Option<string> {
    match content case None => None case Some(raw) => Some(ReadText(raw))
  }

  function Recorded(s: State, c: string): State {
    s.(records := s.records[c := Read(s.dropin)], order := s.order + [c])
  }

  /** The exception path of an activation: put back what the record says. */
  function PutBack(s: State, c: string, f: Faults): (State, Verdict)
    requires c in s.records
  {
    var back := s.(dropin := s.records[c]);
    (After(f.writeBack, s, back),
     match f.writeBack
     case Done => (match f.restartBack case Done => Restored case Fails => Blocked case _ => Died)
     case Fails => Blocked
     case _ => Died)
  }

  /** From the moment the record exists. */
  function Activated(w: World, s: State, c: string, f: Faults): (State, Verdict)
    requires c in s.records
  {
    var active := s.(dropin := Some(w.unit(c)));
    match f.writeUnit
    case Fails => (s, Blocked)
    case DiesBefore => (s, Died)
    case DiesAfter => (active, Died)
    case Done =>
      match f.restart
      case DiesBefore => (active, Died)
      case DiesAfter => (active, Died)
      case Fails => PutBack(active, c, f)
      case Done =>
        match SmokeLoop(f.smoke, 0)
        case Pass => (active, Passed)
        case Killed => (active, Died)
        case _ => PutBack(active, c, f)
  }

  function Apply(w: World, s: State, c: string, f: Faults): (State, Verdict) {
    if !IsHex(c, 64) || !f.checks || !f.install then (s, Blocked)
    else if c in s.records then
      if Read(s.dropin) != Some(w.unit(c)) && Read(s.dropin) != s.records[c] then (s, Drift)
      else if Read(s.dropin) == Some(w.unit(c)) then
        (s, match f.smoke(0) case Pass => AlreadyActive case Killed => Died case _ => Blocked)
      else Activated(w, s, c, f)
    else
      match f.writeRecord
      case Fails => (s, Blocked)
      case DiesBefore => (s, Died)
      case DiesAfter => (Recorded(s, c), Died)
      case Done => Activated(w, Recorded(s, c), c, f)
  }

  /** Unlike an activation, a rollback compares the bytes of the drop-in. */
  function Rollback(w: World, s: State, c: string, f: Faults): (State, Verdict) {
    if !IsHex(c, 64) || !f.checks then (s, Blocked)
    else if c !in s.records || s.dropin != Some(w.unit(c)) then (s, Mismatch)
    else
      (After(f.writeBack, s, s.(dropin := s.records[c])),
       match f.writeBack
       case Done => (match f.restartBack case Done => RolledBack case Fails => Blocked case _ => Died)
       case Fails => Blocked
       case _ => Died)
  }

  // ---------------------------------------------------------------- the same, step by step

  class Host {
    const w: World
    const original: Option<string>
    var dropin: Option<string>
    var records: map<string, Option<string>>
    ghost var order: seq<string>

    /** The records form a chain back to the drop-in that was there before the first activation. */
    ghost predicate Valid()
      reads this
    {
      ChainOk(w, original, Now())
    }

    ghost function Now(): State
      reads this
    {
      State(dropin, records, order)
    }

    constructor (w: World, dropin: Option<string>)
      ensures Valid() && this.w == w && original == dropin && Now() == State(dropin, map[], [])
    {
      this.w := w;
      original := dropin;
      this.dropin := dropin;
      this.records := map[];
      this.order := [];
    }

    /** Up to twelve attempts: the first one that is not refused decides, and twelve refusals are
        a failure. */
    method SmokeTest(f: Faults) returns (r: Smoke)
      ensures r == SmokeLoop(f.smoke, 0)
      ensures r == Pass <==> exists k: nat :: Decides(f.smoke, k, Pass)
      ensures r == Killed <==> exists k: nat :: Decides(f.smoke, k, Killed)
      ensures r == Broken <==> SmokeFails(f.smoke)
    {
      var attempt: nat := 0;
      while true
        invariant attempt < SMOKE_ATTEMPTS && SmokeLoop(f.smoke, 0) == SmokeLoop(f.smoke, attempt)
        invariant forall k: nat :: k < attempt ==> f.smoke(k) == Refused
        decreases SMOKE_ATTEMPTS - attempt
      {
        assert f.smoke(attempt) != Refused ==> Decides(f.smoke, attempt, f.smoke(attempt));
        match f.smoke(attempt) {
          case Pass => return Pass;
          case Killed => return Killed;
          case Broken => return Broken;
          case Refused =>
            if attempt == SMOKE_ATTEMPTS - 1 { return Broken; }
            attempt := attempt + 1;
        }
      }
    }

    method WriteDropin(e: Effect, content: Option<string>)
      modifies this`dropin
      ensures dropin == After(e, old(dropin), content)
    {
      if e == Done || e == DiesAfter { dropin := content; }
    }

    method Restore(c: string, f: Faults) returns (r: Verdict)
      requires c in records
      modifies this`dropin
      ensures (Now(), r) == PutBack(old(Now()), c, f)
    {
      var saved := records[c];
      WriteDropin(f.writeBack, saved);
      if f.writeBack == Fails { return Blocked; }
      if f.writeBack != Done { return Died; }
      r := match f.restartBack case Done => Restored case Fails => Blocked case _ => Died;
    }

    /** `activate`. What it leaves behind satisfies Attempted. */
    method PerformApply(c: string, f: Faults) returns (r: Verdict)
      requires Valid()
      modifies this
      ensures Valid() && (Now(), r) == Apply(w, old(Now()), c, f)
      ensures Attempted(w, old(Now()), c, Now(), r)
      ensures Verdicts(w, old(Now()), c, f, r)
    {
      ApplyKeeps(w, original, Now(), c, f);
      ApplyEffect(w, Now(), c, f);
      ApplyVerdict(w, Now(), c, f);
      hide IsHex, SmokeLoop, Activated, ChainOk, Attempted, Read, Verdicts;
      if !IsHex(c, 64) || !f.checks || !f.install { return Blocked; }
      var unit := w.unit(c);
      var current := Read(dropin);
      if c in records {
        var saved := records[c];
        if current != Some(unit) && current != saved { return Drift; }
        if current == Some(unit) {
          return match f.smoke(0) case Pass => AlreadyActive case Killed => Died case _ => Blocked;
        }
      } else {
        if f.writeRecord == Fails { return Blocked; }
        if f.writeRecord == DiesBefore { return Died; }
        records := records[c := current];
        order := order + [c];
        if f.writeRecord == DiesAfter { return Died; }
      }
      r := ActivateRelease(c, f);
    }

    /** The steps of an activation once the record exists. */
    method ActivateRelease(c: string, f: Faults) returns (r: Verdict)
      requires c in records
      modifies this`dropin
      ensures (Now(), r) == Activated(w, old(Now()), c, f)
    {
      hide SmokeLoop, PutBack;
      WriteDropin(f.writeUnit, Some(w.unit(c)));
      if f.writeUnit == Fails { return Blocked; }
      if f.writeUnit != Done { return Died; }
      if f.restart == DiesBefore || f.restart == DiesAfter { return Died; }
      if f.restart == Done {
        var smoke := SmokeTest(f);
        if smoke == Pass { return Passed; }
        if smoke == Killed { return Died; }
      }
      r := Restore(c, f);
    }

    /** Only the active release is rolled back, to what its record says; the record stays. */
    method PerformRollback(c: string, f: Faults) returns (r: Verdict)
      requires Valid()
      modifies this`dropin
      ensures Valid() && (Now(), r) == Rollback(w, old(Now()), c, f)
      ensures r == RolledBack ==> Active(w, old(Now()), c) && dropin == records[c]
      ensures dropin != old(dropin) ==> Active(w, old(Now()), c) && dropin == records[c]
      ensures r == RolledBack <==> RollsBack(w, old(Now()), c, f) && f.writeBack == Done && f.restartBack == Done
      ensures r == Mismatch <==> IsHex(c, 64) && f.checks && !Active(w, old(Now()), c)
      ensures r == Died <==>
                RollsBack(w, old(Now()), c, f)
                && (Dying(f.writeBack) || (f.writeBack == Done && Dying(f.restartBack)))
      ensures RollsBack(w, old(Now()), c, f) && (f.writeBack == Done || f.writeBack == DiesAfter) ==>
                dropin == records[c]
    {
      if c in records { DropinKeeps(w, original, Now(), c); }
      hide IsHex, ChainOk;
      if !IsHex(c, 64) || !f.checks { return Blocked; }
      var unit := w.unit(c);
      if c !in records || dropin != Some(unit) { return Mismatch; }
      var saved := records[c];
      WriteDropin(f.writeBack, saved);
      if f.writeBack == Fails { return Blocked; }
      if f.writeBack != Done { return Died; }
      r := match f.restartBack case Done => RolledBack case Fails => Blocked case _ => Died;
    }
  }

  // ---------------------------------------------------------------- all runs

  datatype Op = ApplyOp(c: string, f: Faults) | RollbackOp(c: string, f: Faults)

  function Step(w: World, s: State, op: Op): State {
    match op
    case ApplyOp(c, f) => Apply(w, s, c, f).0
    case RollbackOp(c, f) => Rollback(w, s, c, f).0
  }

  function Run(w: World, original: Option<string>, ops: seq<Op>): State {
    if ops == [] then State(original, map[], [])
    else Step(w, Run(w, original, ops[..|ops| - 1]), ops[|ops| - 1])
  }

  /** The content is the original drop-in as it was read, or the unit of one of the first n
      recorded releases. */
  ghost predicate From(w: World, original: Option<string>, order: seq<string>, n: nat, v: Option<string>) {
    v == Read(original) || exists j :: 0 <= j < n && j < |order| && v == Some(w.unit(order[j]))
  }

  /** Records belong to distinct releases, and each holds the original drop-in as it was read or
      the unit of a release recorded before; the drop-in is the untouched original or such a
      content. */
  ghost predicate ChainOk(w: World, original: Option<string>, s: State) {
    (forall i, j :: 0 <= i < j < |s.order| ==> s.order[i] != s.order[j])
    && (forall c :: c in s.records <==> c in s.order)
    && (forall i :: 0 <= i < |s.order| ==> IsHex(s.order[i], 64))
    && (forall i :: 0 <= i < |s.order| ==> s.order[i] in s.records)
    && (forall i :: 0 <= i < |s.order| ==> From(w, original, s.order, i, s.records[s.order[i]]))
    && (s.dropin == original || From(w, original, s.order, |s.order|, s.dropin))
  }

  /** What was read reads the same again. */
  lemma FromIsRead(w: World, original: Option<string>, order: seq<string>, n: nat, v: Option<string>)
    requires From(w, original, order, n, v)
    ensures Read(v) == v && (v.Some? ==> '\r' !in v.value)
  {
    if v.Some? { ReadTextKeeps(v.value); }
  }

  lemma FromStays(w: World, original: Option<string>, order: seq<string>, n: nat, v: Option<string>, c: string)
    requires From(w, original, order, n, v)
    ensures From(w, original, order + [c], n, v) && From(w, original, order + [c], n + 1, v)
  {
    hide Read;
    if v != Read(original) {
      var j :| 0 <= j < n && j < |order| && v == Some(w.unit(order[j]));
      assert (order + [c])[j] == order[j];
    }
  }

  lemma RecordKeeps(w: World, original: Option<string>, s: State, c: string)
    requires ChainOk(w, original, s) && c !in s.records && IsHex(c, 64)
    ensures ChainOk(w, original, Recorded(s, c))
  {
    hide IsHex, From;
    var t := Recorded(s, c);
    assert From(w, original, s.order, |s.order|, Read(s.dropin)) by {
      ReadIsFrom(w, original, s);
    }
    forall i | 0 <= i < |t.order|
      ensures t.order[i] in t.records && From(w, original, t.order, i, t.records[t.order[i]])
    {
      if i < |s.order| {
        assert t.order[i] == s.order[i];
        FromStays(w, original, s.order, i, s.records[s.order[i]], c);
      } else {
        FromStays(w, original, s.order, |s.order|, Read(s.dropin), c);
      }
    }
    if s.dropin != original { FromStays(w, original, s.order, |s.order|, s.dropin, c); }
  }

  lemma ReadIsFrom(w: World, original: Option<string>, s: State)
    requires ChainOk(w, original, s)
    ensures From(w, original, s.order, |s.order|, Read(s.dropin))
  {
    hide IsHex;
    if s.dropin != original { FromIsRead(w, original, s.order, |s.order|, s.dropin); }
  }

  /** The drop-in becomes the unit of a recorded release, or what a record says. */
  lemma DropinKeeps(w: World, original: Option<string>, s: State, c: string)
    requires ChainOk(w, original, s) && c in s.records
    ensures ChainOk(w, original, s.(dropin := Some(w.unit(c)))) && ChainOk(w, original, s.(dropin := s.records[c]))
  {
    hide IsHex;
    var i :| 0 <= i < |s.order| && s.order[i] == c;
    assert From(w, original, s.order, i, s.records[c]);
  }

  lemma ApplyKeeps(w: World, original: Option<string>, s: State, c: string, f: Faults)
    requires ChainOk(w, original, s)
    ensures ChainOk(w, original, Apply(w, s, c, f).0)
  {
    hide IsHex, ChainOk, SmokeLoop;
    if IsHex(c, 64) {
      if c !in s.records { RecordKeeps(w, original, s, c); }
      var t := if c in s.records then s else Recorded(s, c);
      DropinKeeps(w, original, t, c);
    }
  }

  lemma StepKeeps(w: World, original: Option<string>, s: State, op: Op)
    requires ChainOk(w, original, s)
    ensures ChainOk(w, original, Step(w, s, op))
  {
    hide IsHex, ChainOk, Apply;
    match op {
      case ApplyOp(c, f) => ApplyKeeps(w, original, s, c, f);
      case RollbackOp(c, f) => if c in s.records { DropinKeeps(w, original, s, c); }
    }
  }

  /** Over every sequence of runs, with failures and crashes anywhere. */
  lemma {:induction false} RunKeeps(w: World, original: Option<string>, ops: seq<Op>)
    ensures ChainOk(w, original, Run(w, original, ops))
  {
    hide Step;
    if ops == [] {
    } else {
      RunKeeps(w, original, ops[..|ops| - 1]);
      StepKeeps(w, original, Run(w, original, ops[..|ops| - 1]), ops[|ops| - 1]);
    }
  }

  lemma StepLeavesRecords(w: World, s: State, op: Op, c: string)
    requires c in s.records
    ensures c in Step(w, s, op).records && Step(w, s, op).records[c] == s.records[c]
  {
    hide IsHex, SmokeLoop;
  }

  /** A record, once there, is never overwritten. */
  lemma {:induction false} RecordsStand(w: World, original: Option<string>, ops: seq<Op>, k: nat, c: string)
    requires k <= |ops| && c in Run(w, original, ops[..k]).records
    ensures c in Run(w, original, ops).records
    ensures Run(w, original, ops).records[c] == Run(w, original, ops[..k]).records[c]
  {
    hide Step;
    if k == |ops| {
      assert ops[..k] == ops;
    } else {
      var n := |ops| - 1;
      assert ops[..n][..k] == ops[..k];
      RecordsStand(w, original, ops[..n], k, c);
      StepLeavesRecords(w, Run(w, original, ops[..n]), ops[n], c);
    }
  }

  // ---------------------------------------------------------------- the way back

  const SMOOTH := (s: nat) => Pass

  /** A run in which every step is done. */
  function Smooth(): Faults { Faults(true, true, Done, Done, Done, SMOOTH, Done, Done) }

  predicate Active(w: World, s: State, c: string) { c in s.records && s.dropin == Some(w.unit(c)) }

  /** At most n rollbacks of the active release, each of them accepted, lead to this content. */
  ghost predicate WayBack(w: World, goal: Option<string>, s: State, n: nat)
    decreases n
  {
    s.dropin == goal
    || (n > 0 && (exists c :: Active(w, s, c))
        && forall c :: Active(w, s, c) ==>
             Rollback(w, s, c, Smooth()).1 == RolledBack && WayBack(w, goal, Rollback(w, s, c, Smooth()).0, n - 1))
  }

  lemma OneIsActive(w: World, a: string, b: string)
    requires Sound(w) && IsHex(a, 64) && IsHex(b, 64) && w.unit(a) == w.unit(b)
    ensures a == b
  {
    hide Render, IsHex;
    UnitsDiffer(w.commit(a), a, w.commit(b), b);
  }

  lemma SmoothRollback(w: World, s: State, c: string)
    requires Active(w, s, c) && IsHex(c, 64)
    ensures Rollback(w, s, c, Smooth()) == (s.(dropin := s.records[c]), RolledBack)
  {
    hide IsHex;
  }

  /** Rolling back the active release takes one of the earlier contents. */
  lemma StepBack(w: World, original: Option<string>, s: State, n: nat, c: string)
    requires Sound(w) && ChainOk(w, original, s) && n <= |s.order| && From(w, original, s.order, n, s.dropin)
    requires s.dropin != Read(original) && Active(w, s, c)
    ensures n > 0 && Rollback(w, s, c, Smooth()) == (s.(dropin := s.records[c]), RolledBack)
    ensures ChainOk(w, original, s.(dropin := s.records[c])) && From(w, original, s.order, n - 1, s.records[c])
  {
    hide Sound, IsHex, Rollback, Read;
    var j :| 0 <= j < n && s.dropin == Some(w.unit(s.order[j]));
    assert c in s.order;
    OneIsActive(w, c, s.order[j]);
    SmoothRollback(w, s, c);
    DropinKeeps(w, original, s, c);
    FromMore(w, original, s.order, j, n - 1, s.records[c]);
  }

  lemma SomeActive(w: World, original: Option<string>, s: State, n: nat)
    requires ChainOk(w, original, s) && n <= |s.order| && From(w, original, s.order, n, s.dropin)
    requires s.dropin != Read(original)
    ensures n > 0 && exists c :: Active(w, s, c)
  {
    hide IsHex, Read;
    var j :| 0 <= j < n && s.dropin == Some(w.unit(s.order[j]));
    assert Active(w, s, s.order[j]);
  }

  lemma {:induction false} FindsWayBack(w: World, original: Option<string>, s: State, n: nat)
    requires Sound(w) && ChainOk(w, original, s) && n <= |s.order| && From(w, original, s.order, n, s.dropin)
    ensures WayBack(w, Read(original), s, n)
    decreases n
  {
    hide Sound, Rollback, ChainOk, From, Read;
    if s.dropin == Read(original) {
    } else {
      SomeActive(w, original, s, n);
      forall c | Active(w, s, c)
        ensures Rollback(w, s, c, Smooth()).1 == RolledBack
                && WayBack(w, Read(original), Rollback(w, s, c, Smooth()).0, n - 1)
      {
        StepBack(w, original, s, n, c);
        FindsWayBack(w, original, s.(dropin := s.records[c]), n - 1);
      }
    }
  }

  lemma FromMore(w: World, original: Option<string>, order: seq<string>, n: nat, m: nat, v: Option<string>)
    requires From(w, original, order, n, v) && n <= m
    ensures From(w, original, order, m, v)
  {
  }

  /** After any runs whatsoever the drop-in is the untouched original, or rolling back the active
      release again and again ends at the original as it was read, in at most as many steps as
      there are records. */
  lemma RollbackReachesOriginal(w: World, original: Option<string>, ops: seq<Op>)
    requires Sound(w)
    ensures var s := Run(w, original, ops); s.dropin == original || WayBack(w, Read(original), s, |s.order|)
  {
    hide WayBack, IsHex, Sound;
    RunKeeps(w, original, ops);
    var s := Run(w, original, ops);
    if s.dropin != original { FindsWayBack(w, original, s, |s.order|); }
  }

  /** A text without carriage returns is read as it stands, and no other is. */
  predicate HasReturn(content: Option<string>) { content.Some? && '\r' in content.value }

  lemma ReadsAsItStands(content: Option<string>)
    ensures Read(content) == content <==> !HasReturn(content)
  {
    if content.Some? && !HasReturn(content) { ReadTextKeeps(content.value); }
  }

  lemma RolledBackIsRead(w: World, original: Option<string>, s: State, c: string)
    requires ChainOk(w, original, s) && Active(w, s, c)
    ensures IsHex(c, 64) && !HasReturn(s.records[c])
    ensures ChainOk(w, original, s.(dropin := s.records[c]))
  {
    hide IsHex, Read;
    DropinKeeps(w, original, s, c);
    var i :| 0 <= i < |s.order| && s.order[i] == c;
    FromIsRead(w, original, s.order, i, s.records[c]);
  }

  /** A content with a carriage return is never reached by a rollback. */
  lemma {:induction false} NoWayBack(w: World, original: Option<string>, s: State, n: nat)
    requires ChainOk(w, original, s) && HasReturn(original) && s.dropin != original
    ensures !WayBack(w, original, s, n)
    decreases n
  {
    hide ChainOk, IsHex, Rollback;
    if WayBack(w, original, s, n) {
      var c :| Active(w, s, c);
      RolledBackIsRead(w, original, s, c);
      SmoothRollback(w, s, c);
      NoWayBack(w, original, s.(dropin := s.records[c]), n - 1);
    }
  }

  /** Once the drop-in is no longer the untouched original, rollbacks bring the original back if
      and only if it has no carriage return. */
  lemma OriginalComesBack(w: World, original: Option<string>, ops: seq<Op>)
    requires Sound(w) && Run(w, original, ops).dropin != original
    ensures (exists n: nat :: WayBack(w, original, Run(w, original, ops), n)) <==> !HasReturn(original)
  {
    hide Sound, WayBack, IsHex, Run, Read;
    RunKeeps(w, original, ops);
    var s := Run(w, original, ops);
    ReadsAsItStands(original);
    if HasReturn(original) {
      forall n: nat
        ensures !WayBack(w, original, s, n)
      {
        NoWayBack(w, original, s, n);
      }
    } else {
      RollbackReachesOriginal(w, original, ops);
      assert WayBack(w, original, s, |s.order|);
    }
  }

  /** From s to t by one activation: records are only added, and only for this release; a pass
      leaves the unit and a record of what was read, a refusal changes nothing, a restored
      activation leaves the drop-in as it was read, and anything else leaves it as it was, as it
      was read, or as the recorded unit. */
  ghost predicate Attempted(w: World, s: State, c: string, t: State, r: Verdict) {
    && (forall k :: k in s.records ==> k in t.records && t.records[k] == s.records[k])
    && t.records.Keys <= s.records.Keys + {c}
    && (t.dropin == s.dropin || t.dropin == Read(s.dropin) || Active(w, t, c))
    && (r == Passed ==> Active(w, t, c) && t.records[c] == Read(s.dropin))
    && (r == Restored ==> t.dropin == Read(s.dropin))
    && (r == Drift || r == AlreadyActive ==> t == s && c in s.records)
    && (r == AlreadyActive ==> Read(s.dropin) == Some(w.unit(c)))
    && (r == Drift ==> Read(s.dropin) != Some(w.unit(c)) && Read(s.dropin) != s.records[c])
  }

  lemma ApplyEffect(w: World, s: State, c: string, f: Faults)
    ensures Attempted(w, s, c, Apply(w, s, c, f).0, Apply(w, s, c, f).1)
  {
    hide IsHex, SmokeLoop, Activated, Read;
    if c in s.records {
      ActivatedEffect(w, s, c, f);
    } else {
      ActivatedEffect(w, Recorded(s, c), c, f);
    }
  }

  lemma ActivatedEffect(w: World, s: State, c: string, f: Faults)
    requires c in s.records
    ensures var (t, r) := Activated(w, s, c, f);
            t.records == s.records
            && (t.dropin == s.dropin || t.dropin == s.records[c] || t.dropin == Some(w.unit(c)))
            && (r == Passed ==> t.dropin == Some(w.unit(c)))
            && (r == Restored ==> t.dropin == s.records[c])
            && (ActivationFails(f) && (f.writeBack == Done || f.writeBack == DiesAfter) ==> t.dropin == s.records[c])
            && r != Drift && r != AlreadyActive
  {
    hide SmokeLoop, Decides;
    SmokeMeans(f.smoke, 0);
  }

  /** The unit is in place, and the restart or the smoke test fails. */
  ghost predicate ActivationFails(f: Faults) {
    f.writeUnit == Done && (f.restart == Fails || (f.restart == Done && SmokeFails(f.smoke)))
  }

  predicate Dying(e: Effect) { e == DiesBefore || e == DiesAfter }

  /** The release is recorded, active, and may be rolled back. */
  predicate RollsBack(w: World, s: State, c: string, f: Faults) { IsHex(c, 64) && f.checks && Active(w, s, c) }

  /** The checks pass, and there is a record of this release. */
  predicate Retries(s: State, c: string, f: Faults) { IsHex(c, 64) && f.checks && f.install && c in s.records }

  /** The process dies in a step of the activation that it gets to. */
  ghost predicate ActivationDies(f: Faults) {
    || Dying(f.writeUnit)
    || (f.writeUnit == Done
        && (Dying(f.restart) || (f.restart == Done && exists k: nat :: Decides(f.smoke, k, Killed))))
    || (ActivationFails(f) && (Dying(f.writeBack) || (f.writeBack == Done && Dying(f.restartBack))))
  }

  /** Every verdict of an activation has its exact condition; what is left is blocked. */
  ghost predicate Verdicts(w: World, s: State, c: string, f: Faults, r: Verdict) {
    && (r == Passed <==>
          Starts(w, s, c, f) && f.writeUnit == Done && f.restart == Done && exists k: nat :: Decides(f.smoke, k, Pass))
    && (r == Restored <==>
          Starts(w, s, c, f) && ActivationFails(f) && f.writeBack == Done && f.restartBack == Done)
    && (r == AlreadyActive <==> Retries(s, c, f) && Read(s.dropin) == Some(w.unit(c)) && f.smoke(0) == Pass)
    && (r == Drift <==> Retries(s, c, f) && Read(s.dropin) != Some(w.unit(c)) && Read(s.dropin) != s.records[c])
    && (r == Died <==>
          || (IsHex(c, 64) && f.checks && f.install && c !in s.records && Dying(f.writeRecord))
          || (Retries(s, c, f) && Read(s.dropin) == Some(w.unit(c)) && f.smoke(0) == Killed)
          || (Starts(w, s, c, f) && ActivationDies(f)))
    && r != Mismatch && r != RolledBack
  }

  lemma ActivatedVerdict(w: World, s: State, c: string, f: Faults)
    requires c in s.records
    ensures var r := Activated(w, s, c, f).1;
            (r == Passed <==> f.writeUnit == Done && f.restart == Done && exists k: nat :: Decides(f.smoke, k, Pass))
            && (r == Restored <==> ActivationFails(f) && f.writeBack == Done && f.restartBack == Done)
            && (r == Died <==> ActivationDies(f))
            && r in {Passed, Restored, Died, Blocked}
  {
    hide SmokeLoop, Decides;
    SmokeMeans(f.smoke, 0);
  }

  lemma ApplyVerdict(w: World, s: State, c: string, f: Faults)
    ensures Verdicts(w, s, c, f, Apply(w, s, c, f).1)
  {
    hide IsHex, Activated, Read, SmokeFails, Decides, ActivationDies, ActivationFails;
    if c in s.records {
      ActivatedVerdict(w, s, c, f);
    } else {
      ActivatedVerdict(w, Recorded(s, c), c, f);
    }
  }

  /** The activation gets as far as writing its unit. */
  predicate Starts(w: World, s: State, c: string, f: Faults) {
    IsHex(c, 64) && f.checks && f.install
    && (if c in s.records then Read(s.dropin) != Some(w.unit(c)) && Read(s.dropin) == s.records[c]
        else f.writeRecord == Done)
  }

  /** An activation whose restart or smoke test fails, and whose restore is written, leaves the
      drop-in as it was read on entry; that is the drop-in on entry if and only if it had no
      carriage return. */
  lemma FailedApplyRestores(w: World, s: State, c: string, f: Faults)
    requires Starts(w, s, c, f) && ActivationFails(f) && (f.writeBack == Done || f.writeBack == DiesAfter)
    ensures Apply(w, s, c, f).0.dropin == Read(s.dropin)
    ensures Apply(w, s, c, f).0.dropin == s.dropin <==> !HasReturn(s.dropin)
  {
    hide IsHex, Activated, ActivationFails, Read;
    ReadsAsItStands(s.dropin);
    ActivatedEffect(w, if c in s.records then s else Recorded(s, c), c, f);
  }

  // ---------------------------------------------------------------- carriage returns are lost

  const WINDOWS_DROPIN: Option<string> := Some("[Service]\r\n")

  lemma WindowsIsRead()
    ensures Read(WINDOWS_DROPIN) == Some("[Service]\n") && HasReturn(WINDOWS_DROPIN)
  {
    hide ReadText;
    BreakIsRead();
    ReadTextJoins("[Service]", "\r\n");
    ReadTextKeeps("[Service]");
    assert "[Service]" + "\r\n" == "[Service]\r\n" && "[Service]" + "\n" == "[Service]\n";
    assert "\r\n"[0] == '\r';
  }

  lemma BreakIsRead()
    ensures ReadText("\r\n") == "\n"
  {
    assert "\r\n"[2..] == "";
  }

  lemma {:induction false} ReadTextJoins(a: string, b: string)
    requires '\r' !in a
    ensures ReadText(a + b) == a + ReadText(b)
  {
    if a == [] {
      assert a + b == b;
    } else {
      assert (a + b)[1..] == a[1..] + b;
      ReadTextJoins(a[1..], b);
    }
  }

  /** A drop-in with Windows line ends comes back changed, from a failed activation that reports
      that it restored it, and from an activation that passed and was rolled back. */
  lemma ReturnsAreLost(w: World, c: string, failing: Faults)
    requires IsHex(c, 64) && failing == Smooth().(restart := Fails)
    ensures var s := State(WINDOWS_DROPIN, map[], []);
            Apply(w, s, c, failing).1 == Restored
            && Apply(w, s, c, failing).0.dropin == Some("[Service]\n")
            && Apply(w, s, c, Smooth()).1 == Passed
            && Rollback(w, Apply(w, s, c, Smooth()).0, c, Smooth()).1 == RolledBack
            && Rollback(w, Apply(w, s, c, Smooth()).0, c, Smooth()).0.dropin == Some("[Service]\n")
            && s.dropin != Some("[Service]\n")
  {
    hide IsHex, Read, WINDOWS_DROPIN;
    WindowsIsRead();
    ReadsAsItStands(WINDOWS_DROPIN);
  }
}
