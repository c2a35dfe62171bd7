/** Business actions driven against a property management system: any number of host threads
    prepare, execute, resume and recover, each of which may die between any two calls, while
    requests on the wire may be delayed, repeated or lost together with their answers. */
module PmsOps {
  import opened Text

  type Id = nat
  type ThreadId = nat

  /** The keys derived from the id of an action. */
  datatype Key = ExecutionKey(action: Id) | PreviewKey(action: Id, version: nat)

  /** A quote is executed by its one request; a command is previewed, confirmed by a person and
      then executed. */
  datatype Kind = Quote | Command

  datatype Phase =
    | Draft | Previewing | PreviewRejected | Awaiting | Executing | Unknown | Completed | NotExecuted
    | Paused | Cancelled | ManualHandoff | ManualCompleted

  datatype Outcome = Executed | Refused

  /** What the broker keeps about one action. */
  datatype Action = Action(kind: Kind, phase: Phase, claim: Option<nat>, version: nat)

  /** A request that was put on the wire. `Effect` is the confirmation of a preview or the quote
      request; only these can commit. */
  datatype Post = Effect(action: Id, key: Key) | PreviewPost(action: Id, key: Key) | Resolve(action: Id, key: Key)

  /** Where a host thread stands, with the claim and the key it was given. */
  datatype Pc =
    | PreviewReady(claim: nat, key: Key) | PreviewSent(claim: nat)
    | SavePreview(claim: nat) | RejectPreview(claim: nat)
    | EffectReady(claim: nat, key: Key) | EffectSent(claim: nat, key: Key)
    | RecoverReady(claim: nat, key: Key) | ResolveReady(claim: nat, key: Key) | ResolveSent(claim: nat, key: Key)
    | SaveResult(claim: nat, result: Option<Outcome>)

  datatype Thread = Thread(action: Id, pc: Pc)

  /** The broker's actions, the host threads, everything ever put on the wire, and the outcomes
      and commits of the property management system. */
  datatype State = State(actions: map<Id, Action>, nextClaim: nat, threads: map<ThreadId, Thread>, posts: seq<Post>,
                         outcomes: map<Key, Outcome>, commits: seq<Key>)

  const START := State(map[], 0, map[], [], map[], [])

  /** How the answer to a preview turns out. */
  datatype PreviewAnswer = Previewed | Rejected | Lost

  datatype Step =
    | Start(id: Id, kind: Kind)
    | ClaimPreview(t: ThreadId, id: Id)
    | SendPreview(t: ThreadId)
    | AnswerPreview(t: ThreadId, answer: PreviewAnswer)
    | StorePreview(t: ThreadId)
    | ClaimExecute(t: ThreadId, id: Id)
    | SendEffect(t: ThreadId)
    | AnswerEffect(t: ThreadId)
    | LoseEffect(t: ThreadId)
    | Recover(t: ThreadId, id: Id)
    | AnswerQuery(t: ThreadId)
    | QueryUnknown(t: ThreadId)
    | SendResolve(t: ThreadId)
    | AnswerResolve(t: ThreadId)
    | ResolveUnknown(t: ThreadId)
    | StoreResult(t: ThreadId)
    | Pause(id: Id)
    | Cancel(id: Id)
    | Handoff(id: Id)
    | FinishManually(id: Id)
    | Resume(id: Id)
    | Commit(i: nat)
    | Refuse(i: nat)
    | Die(t: ThreadId)

  // ---------------------------------------------------------------- the broker

  predicate InFlight(p: Phase) { p == Previewing || p == Executing || p == Unknown }

  predicate Terminal(p: Phase) { p == Completed || p == NotExecuted || p == ManualCompleted || p == PreviewRejected }

  /** Pausing, cancelling and handing over are open unless something is in flight or final. */
  predicate CanLeave(p: Phase) { !InFlight(p) && !Terminal(p) && p != ManualHandoff }

  /** `pms_save_result`: which results a phase accepts. */
  predicate Accepts(a: Action, claim: nat, result: Option<Outcome>) {
    a.claim == Some(claim)
    && (a.phase == Executing || a.phase == Unknown
        || (a.phase == Previewing && (a.kind == Quote || result != Some(Executed))))
  }

  function AfterResult(a: Action, result: Option<Outcome>): Phase {
    match result
    case Some(Executed) => Completed
    case Some(Refused) => NotExecuted
    case None => if a.phase == Previewing then Previewing else Unknown
  }

  function SetPhase(s: State, id: Id, p: Phase): State
    requires id in s.actions
  {
    s.(actions := s.actions[id := s.actions[id].(phase := p)])
  }

  /** Hand out a fresh claim to a thread. */
  function Claimed(s: State, t: ThreadId, id: Id, p: Phase, pc: Pc): State
    requires id in s.actions
  {
    s.(actions := s.actions[id := s.actions[id].(phase := p, claim := Some(s.nextClaim))],
       nextClaim := s.nextClaim + 1,
       threads := s.threads[t := Thread(id, pc)])
  }

  function To(s: State, t: ThreadId, pc: Pc): State
    requires t in s.threads
  {
    s.(threads := s.threads[t := s.threads[t].(pc := pc)])
  }

  function Gone(s: State, t: ThreadId): State { s.(threads := s.threads - {t}) }

  // ---------------------------------------------------------------- the steps

  function PreviewKeyOf(s: State, id: Id): Key
    requires id in s.actions
  {
    PreviewKey(id, s.actions[id].version)
  }

  function NextClaimPreview(s: State, t: ThreadId, id: Id): State
    requires id in s.actions && t !in s.threads
  {
    if s.actions[id].phase != Draft then s
    else
      Claimed(s, t, id, Previewing,
              if s.actions[id].kind == Quote then EffectReady(s.nextClaim, ExecutionKey(id))
              else PreviewReady(s.nextClaim, PreviewKeyOf(s, id)))
  }

  /** A recovery is given the current claim. In a lost preview of a command the preview is asked
      for again under its key; otherwise the outcome under the execution key is looked up. */
  function NextRecover(s: State, t: ThreadId, id: Id): State
    requires id in s.actions && t !in s.threads
  {
    var a := s.actions[id];
    if !InFlight(a.phase) || a.claim.None? then s
    else if a.phase == Previewing && a.kind == Command then
      s.(threads := s.threads[t := Thread(id, PreviewReady(a.claim.value, PreviewKeyOf(s, id)))])
    else s.(threads := s.threads[t := Thread(id, RecoverReady(a.claim.value, ExecutionKey(id)))])
  }

  /** The result of a thread reaches the broker; a stale claim is refused. */
  function NextStoreResult(s: State, t: ThreadId): State
    requires t in s.threads && s.threads[t].pc.SaveResult?
  {
    var th := s.threads[t];
    var id := th.action;
    if id in s.actions && Accepts(s.actions[id], th.pc.claim, th.pc.result) then
      Gone(SetPhase(s, id, AfterResult(s.actions[id], th.pc.result)), t)
    else Gone(s, t)
  }

  function NextStorePreview(s: State, t: ThreadId): State
    requires t in s.threads && (s.threads[t].pc.SavePreview? || s.threads[t].pc.RejectPreview?)
  {
    var th := s.threads[t];
    var id := th.action;
    if id in s.actions && s.actions[id].phase == Previewing && s.actions[id].claim == Some(th.pc.claim) then
      if th.pc.SavePreview? then
        Gone(s.(actions := s.actions[id := s.actions[id].(phase := Awaiting, claim := None)]), t)
      else Gone(SetPhase(s, id, PreviewRejected), t)
    else Gone(s, t)
  }

  /** A thread gets the recorded outcome of its key. */
  function NextAnswer(s: State, t: ThreadId, claim: nat, key: Key): State
    requires t in s.threads
  {
    if key in s.outcomes then To(s, t, SaveResult(claim, Some(s.outcomes[key]))) else s
  }

  /** The steps of one thread. */
  function NextThread(s: State, t: ThreadId, step: Step): State
    requires t in s.threads
  {
    var th := s.threads[t];
    match (step, th.pc)
    case (SendPreview(_), PreviewReady(c, k)) =>
      To(s, t, PreviewSent(c)).(posts := s.posts + [PreviewPost(th.action, k)])
    case (AnswerPreview(_, answer), PreviewSent(c)) =>
      (match answer
       case Previewed => To(s, t, SavePreview(c))
       case Rejected => To(s, t, RejectPreview(c))
       case Lost => Gone(s, t))
    case (StorePreview(_), SavePreview(_)) => NextStorePreview(s, t)
    case (StorePreview(_), RejectPreview(_)) => NextStorePreview(s, t)
    case (SendEffect(_), EffectReady(c, k)) => To(s, t, EffectSent(c, k)).(posts := s.posts + [Effect(th.action, k)])
    case (AnswerEffect(_), EffectSent(c, k)) => NextAnswer(s, t, c, k)
    // A failed or unsent request: a command is saved as unknown, a quote is left to recovery.
    case (LoseEffect(_), EffectReady(c, _)) => NextLost(s, t, c)
    case (LoseEffect(_), EffectSent(c, _)) => NextLost(s, t, c)
    case (AnswerQuery(_), RecoverReady(c, k)) => NextAnswer(s, t, c, k)
    case (QueryUnknown(_), RecoverReady(c, k)) => To(s, t, ResolveReady(c, k))
    case (SendResolve(_), ResolveReady(c, k)) =>
      To(s, t, ResolveSent(c, k)).(posts := s.posts + [Resolve(th.action, k)])
    case (AnswerResolve(_), ResolveSent(c, k)) => NextAnswer(s, t, c, k)
    case (ResolveUnknown(_), ResolveSent(c, _)) => To(s, t, SaveResult(c, None))
    case (StoreResult(_), SaveResult(_, _)) => NextStoreResult(s, t)
    case (Die(_), _) => Gone(s, t)
    case _ => s
  }

  function NextLost(s: State, t: ThreadId, claim: nat): State
    requires t in s.threads
  {
    var id := s.threads[t].action;
    if id in s.actions && s.actions[id].kind == Command then To(s, t, SaveResult(claim, None)) else Gone(s, t)
  }

  /** The property management system handles something from the wire. A key that has an outcome
      keeps it; a resolve request closes a key that has none. */
  function NextServed(s: State, i: nat, commit: bool): State {
    if i >= |s.posts| || s.posts[i].PreviewPost? || s.posts[i].key in s.outcomes then s
    else if commit && s.posts[i].Effect? then
      s.(outcomes := s.outcomes[s.posts[i].key := Executed], commits := s.commits + [s.posts[i].key])
    else if !commit then s.(outcomes := s.outcomes[s.posts[i].key := Refused])
    else s
  }

  function NextAction(s: State, id: Id, step: Step): State
    requires id in s.actions
  {
    var a := s.actions[id];
    match step
    case Pause(_) => if CanLeave(a.phase) then SetPhase(s, id, Paused) else s
    case Cancel(_) => if CanLeave(a.phase) then SetPhase(s, id, Cancelled) else s
    case Handoff(_) => if CanLeave(a.phase) then SetPhase(s, id, ManualHandoff) else s
    case FinishManually(_) => if a.phase == ManualHandoff then SetPhase(s, id, ManualCompleted) else s
    case Resume(_) =>
      if a.phase == Paused then s.(actions := s.actions[id := a.(phase := Draft, version := a.version + 1)]) else s
    case ClaimPreview(t, _) => if t in s.threads then s else NextClaimPreview(s, t, id)
    case Recover(t, _) => if t in s.threads then s else NextRecover(s, t, id)
    case ClaimExecute(t, _) =>
      if t in s.threads || a.phase != Awaiting then s
      else Claimed(s, t, id, Executing, EffectReady(s.nextClaim, ExecutionKey(id)))
    case _ => s
  }

  /** One step; it does nothing where it is not enabled. */
  function Next(s: State, step: Step): State {
    match step
    case Start(id, kind) =>
      if id in s.actions then s else s.(actions := s.actions[id := Action(kind, Draft, None, 1)])
    case Commit(i) => NextServed(s, i, true)
    case Refuse(i) => NextServed(s, i, false)
    case Pause(id) => if id in s.actions then NextAction(s, id, step) else s
    case Cancel(id) => if id in s.actions then NextAction(s, id, step) else s
    case Handoff(id) => if id in s.actions then NextAction(s, id, step) else s
    case FinishManually(id) => if id in s.actions then NextAction(s, id, step) else s
    case Resume(id) => if id in s.actions then NextAction(s, id, step) else s
    case ClaimPreview(_, id) => if id in s.actions then NextAction(s, id, step) else s
    case ClaimExecute(_, id) => if id in s.actions then NextAction(s, id, step) else s
    case Recover(_, id) => if id in s.actions then NextAction(s, id, step) else s
    case _ => if step.t in s.threads then NextThread(s, step.t, step) else s
  }

  function Run(steps: seq<Step>): State {
    if steps == [] then START else Next(Run(steps[..|steps| - 1]), steps[|steps| - 1])
  }

  // ---------------------------------------------------------------- the invariant

  /** From here on the action may have been, or may yet be, executed. */
  predicate Late(a: Action) {
    a.phase == Executing || a.phase == Unknown || a.phase == Completed || a.phase == NotExecuted
    || (a.phase == Previewing && a.kind == Quote)
  }

  predicate IsLate(s: State, id: Id) { id in s.actions && Late(s.actions[id]) }

  /** How many confirmations (or quote requests) were sent for an action. */
  function EffectPosts(posts: seq<Post>, id: Id): nat {
    if posts == [] then 0
    else
      EffectPosts(posts[..|posts| - 1], id)
      + if posts[|posts| - 1].Effect? && posts[|posts| - 1].action == id then 1 else 0
  }

  /** One action: at most one effect request, none before it is late; a saved result is the
      recorded outcome. Only a command waits for a confirmation. */
  predicate ActionOk(s: State, id: Id)
    requires id in s.actions
  {
    var a := s.actions[id];
    var key := ExecutionKey(id);
    EffectPosts(s.posts, id) <= 1
    && (!Late(a) ==> EffectPosts(s.posts, id) == 0)
    && (a.phase == Awaiting ==> a.kind == Command)
    && (a.phase == Completed ==> key in s.outcomes && s.outcomes[key] == Executed)
    && (a.phase == NotExecuted ==> key in s.outcomes && s.outcomes[key] == Refused)
  }

  predicate PostOk(s: State, p: Post) {
    p.PreviewPost? || (p.key == ExecutionKey(p.action) && IsLate(s, p.action))
  }

  predicate KeyOk(s: State, k: Key) { k.ExecutionKey? && IsLate(s, k.action) }

  /** The claim is the one that the late action stands under. */
  predicate Holds(s: State, id: Id, claim: nat) { IsLate(s, id) && s.actions[id].claim == Some(claim) }

  /** One thread: it works under the claim and the execution key of its own action, and what it is
      about to save is the recorded outcome. */
  predicate ThreadOk(s: State, th: Thread) {
    th.action in s.actions &&
    match th.pc
    case EffectReady(c, k) =>
      k == ExecutionKey(th.action) && Holds(s, th.action, c) && EffectPosts(s.posts, th.action) == 0
    case EffectSent(c, k) => k == ExecutionKey(th.action) && Holds(s, th.action, c)
    case RecoverReady(c, k) => k == ExecutionKey(th.action) && Holds(s, th.action, c)
    case ResolveReady(c, k) => k == ExecutionKey(th.action) && Holds(s, th.action, c)
    case ResolveSent(c, k) => k == ExecutionKey(th.action) && Holds(s, th.action, c)
    case SaveResult(c, r) =>
      Holds(s, th.action, c)
      && (r.Some? ==> ExecutionKey(th.action) in s.outcomes && s.outcomes[ExecutionKey(th.action)] == r.value)
    case _ => s.actions[th.action].kind == Command
  }

  ghost predicate ActionsOk(s: State) { forall id :: id in s.actions ==> ActionOk(s, id) }

  ghost predicate ThreadsOk(s: State) { forall t :: t in s.threads ==> ThreadOk(s, s.threads[t]) }

  predicate MaySend(s: State, t: ThreadId) { t in s.threads && s.threads[t].pc.EffectReady? }

  /** Only one thread can hold the permission to send the effect request of an action. */
  ghost predicate OneSender(s: State) {
    forall t, u :: MaySend(s, t) && MaySend(s, u) && s.threads[t].action == s.threads[u].action ==> t == u
  }

  ghost predicate WireOk(s: State) { forall i :: 0 <= i < |s.posts| ==> PostOk(s, s.posts[i]) }

  /** The other side: one outcome per key, a commit for each executed key and for no other. */
  ghost predicate PmsOk(s: State) {
    (forall k :: k in s.outcomes ==> KeyOk(s, k))
    && (forall k :: k in s.commits <==> k in s.outcomes && s.outcomes[k] == Executed)
    && forall i, j :: 0 <= i < j < |s.commits| ==> s.commits[i] != s.commits[j]
  }

  ghost predicate Inv(s: State) { ActionsOk(s) && ThreadsOk(s) && OneSender(s) && WireOk(s) && PmsOk(s) }

  // ---------------------------------------------------------------- what only grows

  /** Kinds stay, late stays late and keeps its claim, outcomes stay. */
  ghost predicate Grows(s: State, t: State) {
    (forall id :: id in s.actions ==>
       id in t.actions && t.actions[id].kind == s.actions[id].kind && (Late(s.actions[id]) ==> Late(t.actions[id]))
       && (Late(s.actions[id]) ==> t.actions[id].claim == s.actions[id].claim))
    && forall k :: k in s.outcomes ==> k in t.outcomes && t.outcomes[k] == s.outcomes[k]
  }

  lemma ThreadStays(s: State, t: State, th: Thread)
    requires ThreadOk(s, th) && Grows(s, t)
    requires th.pc.EffectReady? ==> EffectPosts(t.posts, th.action) == 0
    ensures ThreadOk(t, th)
  {
    hide EffectPosts, Late;
  }

  lemma RestStays(s: State, t: State)
    requires WireOk(s) && PmsOk(s) && Grows(s, t)
    requires t.posts == s.posts && t.outcomes == s.outcomes && t.commits == s.commits
    ensures WireOk(t) && PmsOk(t)
  {
    hide Late;
    forall i | 0 <= i < |t.posts|
      ensures PostOk(t, t.posts[i])
    {
      assert PostOk(s, s.posts[i]);
    }
    forall k | k in t.outcomes
      ensures KeyOk(t, k)
    {
      assert KeyOk(s, k);
    }
  }

  /** A step that moves or removes one thread and changes nothing else. */
  lemma ThreadMoves(s: State, t: ThreadId, threads: map<ThreadId, Thread>)
    requires Inv(s) && threads.Keys <= s.threads.Keys + {t}
    requires forall u :: u in threads && u != t ==> threads[u] == s.threads[u]
    requires t in threads ==> !threads[t].pc.EffectReady? && ThreadOk(s, threads[t])
    ensures Inv(s.(threads := threads))
  {
    hide ActionOk, KeyOk, PostOk;
    var n := s.(threads := threads);
    forall u | u in threads
      ensures ThreadOk(n, threads[u])
    {
      if u != t { assert u in s.threads; }
      var th := threads[u];
      assert ThreadOk(s, th);
      SameThread(s, n, th);
    }
    assert OneSender(n) by { hide ThreadOk; }
    assert ActionsOk(n) by { SameActions(s, n); }
    assert Grows(s, n);
    RestStays(s, n);
  }

  lemma SameThread(s: State, n: State, th: Thread)
    requires ThreadOk(s, th) && n.actions == s.actions && n.posts == s.posts && n.outcomes == s.outcomes
    ensures ThreadOk(n, th)
  {
  }

  lemma SameActions(s: State, n: State)
    requires ActionsOk(s) && n.actions == s.actions && n.posts == s.posts && n.outcomes == s.outcomes
    ensures ActionsOk(n)
  {
    forall id | id in n.actions
      ensures ActionOk(n, id)
    {
      assert ActionOk(s, id);
    }
  }

  /** A change of one action that no thread may be hurt by. */
  lemma ActionMoves(s: State, id: Id, a: Action, nextClaim: nat)
    requires Inv(s) && id in s.actions && a.kind == s.actions[id].kind && (Late(s.actions[id]) ==> Late(a))
    requires Late(s.actions[id]) ==> a.claim == s.actions[id].claim
    requires a.phase == Awaiting ==> a.kind == Command
    requires a.phase == Completed ==> ExecutionKey(id) in s.outcomes && s.outcomes[ExecutionKey(id)] == Executed
    requires a.phase == NotExecuted ==> ExecutionKey(id) in s.outcomes && s.outcomes[ExecutionKey(id)] == Refused
    ensures Inv(s.(actions := s.actions[id := a], nextClaim := nextClaim))
  {
    hide KeyOk, PostOk, EffectPosts, Late;
    var n := s.(actions := s.actions[id := a], nextClaim := nextClaim);
    assert Grows(s, n);
    forall u | u in n.threads
      ensures ThreadOk(n, n.threads[u])
    {
      assert ThreadOk(s, s.threads[u]);
      ThreadStays(s, n, s.threads[u]);
    }
    assert OneSender(n) by { hide ThreadOk; assert forall u :: MaySend(n, u) <==> MaySend(s, u); }
    forall j | j in n.actions
      ensures ActionOk(n, j)
    {
      assert ActionOk(s, j);
    }
    RestStays(s, n);
  }

  /** A new thread that may send, for an action nobody has sent anything for. */
  lemma SenderStarts(s: State, t: ThreadId, id: Id, claim: nat)
    requires Inv(s) && t !in s.threads && Holds(s, id, claim) && EffectPosts(s.posts, id) == 0
    requires forall u :: MaySend(s, u) ==> s.threads[u].action != id
    ensures Inv(s.(threads := s.threads[t := Thread(id, EffectReady(claim, ExecutionKey(id)))]))
  {
    hide ActionOk, KeyOk, PostOk, Late, EffectPosts;
    var th := Thread(id, EffectReady(claim, ExecutionKey(id)));
    var n := s.(threads := s.threads[t := th]);
    forall u | u in n.threads
      ensures ThreadOk(n, n.threads[u])
    {
      if u != t { assert ThreadOk(s, s.threads[u]); }
    }
    assert OneSender(n) by { hide ThreadOk; assert forall u :: u != t ==> (MaySend(n, u) <==> MaySend(s, u)); }
    SameActions(s, n);
    assert Grows(s, n);
    RestStays(s, n);
  }

  /** Handing out a claim that permits to send: from an action that is not late yet. */
  lemma ClaimsToSend(s: State, t: ThreadId, id: Id, p: Phase)
    requires Inv(s) && t !in s.threads && id in s.actions && !Late(s.actions[id])
    requires Late(s.actions[id].(phase := p)) && p != Completed && p != NotExecuted && p != Awaiting
    ensures Inv(Claimed(s, t, id, p, EffectReady(s.nextClaim, ExecutionKey(id))))
  {
    hide Late, EffectPosts, ActionsOk, ThreadsOk, OneSender, WireOk, PmsOk;
    var a := s.actions[id].(phase := p, claim := Some(s.nextClaim));
    assert Late(a) by { LateIgnoresClaim(s.actions[id].(phase := p), Some(s.nextClaim)); }
    ActionMoves(s, id, a, s.nextClaim + 1);
    var n := s.(actions := s.actions[id := a], nextClaim := s.nextClaim + 1);
    NothingSent(s, id);
    SenderStarts(n, t, id, s.nextClaim);
    assert Claimed(s, t, id, p, EffectReady(s.nextClaim, ExecutionKey(id)))
        == n.(threads := n.threads[t := Thread(id, EffectReady(s.nextClaim, ExecutionKey(id)))]);
  }

  lemma LateIgnoresClaim(a: Action, claim: Option<nat>)
    ensures Late(a.(claim := claim)) == Late(a)
  {
  }

  lemma NothingSent(s: State, id: Id)
    requires Inv(s) && id in s.actions && !Late(s.actions[id])
    ensures EffectPosts(s.posts, id) == 0
    ensures forall u :: MaySend(s, u) ==> s.threads[u].action != id
  {
    hide EffectPosts, Late;
    assert ActionOk(s, id);
    forall u | MaySend(s, u)
      ensures s.threads[u].action != id
    {
      assert ThreadOk(s, s.threads[u]);
    }
  }

  /** The other side handles a request from the wire. */
  lemma ServedKeeps(s: State, i: nat, commit: bool)
    requires Inv(s)
    ensures Inv(NextServed(s, i, commit))
  {
    hide EffectPosts, Late;
    var n := NextServed(s, i, commit);
    if n != s {
      var k := s.posts[i].key;
      assert PostOk(s, s.posts[i]);
      assert Grows(s, n);
      forall u | u in n.threads
        ensures ThreadOk(n, n.threads[u])
      {
        assert ThreadOk(s, s.threads[u]);
        ThreadStays(s, n, s.threads[u]);
      }
      forall j | j in n.actions
        ensures ActionOk(n, j)
      {
        assert ActionOk(s, j);
      }
      assert OneSender(n) by { hide ThreadOk; assert forall u :: MaySend(n, u) <==> MaySend(s, u); }
      assert WireOk(n) by { SameWire(s, n); }
      PmsServed(s, n, k);
    }
  }

  lemma SameWire(s: State, n: State)
    requires WireOk(s) && n.posts == s.posts && n.actions == s.actions
    ensures WireOk(n)
  {
    forall i | 0 <= i < |n.posts|
      ensures PostOk(n, n.posts[i])
    {
      assert PostOk(s, s.posts[i]);
    }
  }

  lemma PmsServed(s: State, n: State, k: Key)
    requires PmsOk(s) && k !in s.outcomes && KeyOk(s, k) && n.actions == s.actions
    requires || (n.outcomes == s.outcomes[k := Executed] && n.commits == s.commits + [k])
             || (n.outcomes == s.outcomes[k := Refused] && n.commits == s.commits)
    ensures PmsOk(n)
  {
    forall j | j in n.outcomes
      ensures KeyOk(n, j)
    {
      if j != k { assert KeyOk(s, j); }
    }
    assert k !in s.commits;
  }

  /** One more request on the wire. */
  lemma PostsSnoc(posts: seq<Post>, p: Post, id: Id)
    ensures EffectPosts(posts + [p], id) == EffectPosts(posts, id) + if p.Effect? && p.action == id then 1 else 0
  {
    assert (posts + [p])[..|posts|] == posts;
  }

  lemma PostKeeps(s: State, p: Post)
    requires Inv(s) && PostOk(s, p)
    requires p.Effect? ==>
               EffectPosts(s.posts, p.action) == 0
               && forall u :: MaySend(s, u) ==> s.threads[u].action != p.action
    ensures Inv(s.(posts := s.posts + [p]))
  {
    hide EffectPosts, Late;
    var n := s.(posts := s.posts + [p]);
    assert Grows(s, n);
    forall u | u in n.threads
      ensures ThreadOk(n, n.threads[u])
    {
      assert ThreadOk(s, s.threads[u]);
      PostsSnoc(s.posts, p, s.threads[u].action);
      assert MaySend(s, u) <==> s.threads[u].pc.EffectReady?;
      ThreadStays(s, n, s.threads[u]);
    }
    forall j | j in n.actions
      ensures ActionOk(n, j)
    {
      assert ActionOk(s, j);
      PostsSnoc(s.posts, p, j);
    }
    assert OneSender(n) by { hide ThreadOk; assert forall u :: MaySend(n, u) <==> MaySend(s, u); }
    forall i | 0 <= i < |n.posts|
      ensures PostOk(n, n.posts[i])
    {
      if i < |s.posts| { assert PostOk(s, s.posts[i]); }
    }
    assert PmsOk(n) by { SamePms(s, n); }
  }

  lemma SamePms(s: State, n: State)
    requires PmsOk(s) && n.actions == s.actions && n.outcomes == s.outcomes && n.commits == s.commits
    ensures PmsOk(n)
  {
    forall k | k in n.outcomes
      ensures KeyOk(n, k)
    {
      assert KeyOk(s, k);
    }
  }

  // ---------------------------------------------------------------- every step keeps the invariant

  lemma GoneKeeps(s: State, t: ThreadId)
    requires Inv(s)
    ensures Inv(Gone(s, t))
  {
    ThreadMoves(s, t, s.threads - {t});
  }

  lemma ToKeeps(s: State, t: ThreadId, pc: Pc)
    requires Inv(s) && t in s.threads && !pc.EffectReady? && ThreadOk(s, Thread(s.threads[t].action, pc))
    ensures Inv(To(s, t, pc))
  {
    hide ThreadOk;
    ThreadMoves(s, t, s.threads[t := s.threads[t].(pc := pc)]);
  }

  /** Sending the effect request uses the permission up. */
  lemma SendEffectKeeps(s: State, t: ThreadId)
    requires Inv(s) && t in s.threads && s.threads[t].pc.EffectReady?
    ensures Inv(NextThread(s, t, SendEffect(t)))
  {
    hide EffectPosts, Late, ActionsOk, WireOk, PmsOk;
    var th := s.threads[t];
    assert ThreadOk(s, th);
    var pc := EffectSent(th.pc.claim, th.pc.key);
    ToKeeps(s, t, pc);
    var n := To(s, t, pc);
    assert forall u :: MaySend(n, u) ==> u != t && MaySend(s, u);
    assert MaySend(s, t);
    PostKeeps(n, Effect(th.action, th.pc.key));
  }

  lemma SendOtherKeeps(s: State, t: ThreadId, pc: Pc, p: Post)
    requires Inv(s) && t in s.threads && !pc.EffectReady? && ThreadOk(s, Thread(s.threads[t].action, pc))
    requires !p.Effect? && PostOk(s, p)
    ensures Inv(To(s, t, pc).(posts := s.posts + [p]))
  {
    hide ThreadOk, PostOk, Inv;
    ToKeeps(s, t, pc);
    assert PostOk(To(s, t, pc), p) by { PostStays(s, To(s, t, pc), p); }
    PostKeeps(To(s, t, pc), p);
  }

  lemma PostStays(s: State, n: State, p: Post)
    requires PostOk(s, p) && n.actions == s.actions
    ensures PostOk(n, p)
  {
  }

  lemma AnswerKeeps(s: State, t: ThreadId, claim: nat, key: Key)
    requires Inv(s) && t in s.threads && key == ExecutionKey(s.threads[t].action)
             && Holds(s, s.threads[t].action, claim)
    ensures Inv(NextAnswer(s, t, claim, key))
  {
    hide Inv, Late;
    if key in s.outcomes { ToKeeps(s, t, SaveResult(claim, Some(s.outcomes[key]))); }
  }

  lemma LostKeeps(s: State, t: ThreadId, claim: nat)
    requires Inv(s) && t in s.threads && Holds(s, s.threads[t].action, claim)
    ensures Inv(NextLost(s, t, claim))
  {
    hide Inv, IsLate;
    var id := s.threads[t].action;
    if id in s.actions && s.actions[id].kind == Command {
      ToKeeps(s, t, SaveResult(claim, None));
    } else {
      GoneKeeps(s, t);
    }
  }

  lemma StoreResultKeeps(s: State, t: ThreadId)
    requires Inv(s) && t in s.threads && s.threads[t].pc.SaveResult?
    ensures Inv(NextStoreResult(s, t))
  {
    hide EffectPosts, ActionsOk, WireOk, PmsOk, OneSender;
    var th := s.threads[t];
    var id := th.action;
    assert ThreadOk(s, th);
    if id in s.actions && Accepts(s.actions[id], th.pc.claim, th.pc.result) {
      var a := s.actions[id].(phase := AfterResult(s.actions[id], th.pc.result));
      ActionMoves(s, id, a, s.nextClaim);
      assert SetPhase(s, id, a.phase) == s.(actions := s.actions[id := a], nextClaim := s.nextClaim);
      GoneKeeps(SetPhase(s, id, a.phase), t);
    } else {
      GoneKeeps(s, t);
    }
  }

  lemma StorePreviewKeeps(s: State, t: ThreadId)
    requires Inv(s) && t in s.threads && (s.threads[t].pc.SavePreview? || s.threads[t].pc.RejectPreview?)
    ensures Inv(NextStorePreview(s, t))
  {
    hide EffectPosts, ActionsOk, WireOk, PmsOk, OneSender;
    var th := s.threads[t];
    var id := th.action;
    assert ThreadOk(s, th);
    if s.actions[id].phase == Previewing && s.actions[id].claim == Some(th.pc.claim) {
      var a := if th.pc.SavePreview? then s.actions[id].(phase := Awaiting, claim := None)
               else s.actions[id].(phase := PreviewRejected);
      ActionMoves(s, id, a, s.nextClaim);
      var n := s.(actions := s.actions[id := a]);
      assert n == s.(actions := s.actions[id := a], nextClaim := s.nextClaim);
      GoneKeeps(n, t);
    } else {
      GoneKeeps(s, t);
    }
  }

  lemma ThreadKeeps(s: State, t: ThreadId, step: Step)
    requires Inv(s) && t in s.threads
    ensures Inv(NextThread(s, t, step))
  {
    hide Inv, Late, EffectPosts, NextAnswer, NextLost, NextStoreResult, NextStorePreview, To, Gone;
    var th := s.threads[t];
    assert ThreadOk(s, th) by { OneThreadOk(s, t); }
    match (step, th.pc) {
      case (SendPreview(_), PreviewReady(c, k)) => SendOtherKeeps(s, t, PreviewSent(c), PreviewPost(th.action, k));
      case (AnswerPreview(_, answer), PreviewSent(c)) =>
        match answer {
          case Previewed => ToKeeps(s, t, SavePreview(c));
          case Rejected => ToKeeps(s, t, RejectPreview(c));
          case Lost => GoneKeeps(s, t);
        }
      case (StorePreview(_), SavePreview(_)) => StorePreviewKeeps(s, t);
      case (StorePreview(_), RejectPreview(_)) => StorePreviewKeeps(s, t);
      case (SendEffect(_), EffectReady(c, k)) =>
        SendEffectKeeps(s, t);
        assert NextThread(s, t, step) == NextThread(s, t, SendEffect(t));
      case (AnswerEffect(_), EffectSent(c, k)) => AnswerKeeps(s, t, c, k);
      case (LoseEffect(_), EffectReady(c, _)) => LostKeeps(s, t, c);
      case (LoseEffect(_), EffectSent(c, _)) => LostKeeps(s, t, c);
      case (AnswerQuery(_), RecoverReady(c, k)) => AnswerKeeps(s, t, c, k);
      case (QueryUnknown(_), RecoverReady(c, k)) => ToKeeps(s, t, ResolveReady(c, k));
      case (SendResolve(_), ResolveReady(c, k)) => SendOtherKeeps(s, t, ResolveSent(c, k), Resolve(th.action, k));
      case (AnswerResolve(_), ResolveSent(c, k)) => AnswerKeeps(s, t, c, k);
      case (ResolveUnknown(_), ResolveSent(c, _)) => ToKeeps(s, t, SaveResult(c, None));
      case (StoreResult(_), SaveResult(_, _)) => StoreResultKeeps(s, t);
      case (Die(_), _) => GoneKeeps(s, t);
      case _ =>
    }
  }

  lemma OneThreadOk(s: State, t: ThreadId)
    requires Inv(s) && t in s.threads
    ensures ThreadOk(s, s.threads[t])
  {
  }

  lemma PhaseKeeps(s: State, id: Id, p: Phase)
    requires Inv(s) && id in s.actions && !Late(s.actions[id]) && p != Completed && p != NotExecuted && p != Awaiting
    ensures Inv(SetPhase(s, id, p))
  {
    hide Inv;
    ActionMoves(s, id, s.actions[id].(phase := p), s.nextClaim);
    assert SetPhase(s, id, p) == s.(actions := s.actions[id := s.actions[id].(phase := p)], nextClaim := s.nextClaim);
  }

  lemma ThreadStarts(s: State, t: ThreadId, th: Thread)
    requires Inv(s) && t !in s.threads && !th.pc.EffectReady? && ThreadOk(s, th)
    ensures Inv(s.(threads := s.threads[t := th]))
  {
    hide ThreadOk;
    ThreadMoves(s, t, s.threads[t := th]);
  }

  lemma ClaimPreviewKeeps(s: State, t: ThreadId, id: Id)
    requires Inv(s) && id in s.actions && t !in s.threads
    ensures Inv(NextClaimPreview(s, t, id))
  {
    hide Inv;
    var a := s.actions[id];
    if a.phase == Draft {
      if a.kind == Quote {
        ClaimsToSend(s, t, id, Previewing);
      } else {
        var b := a.(phase := Previewing, claim := Some(s.nextClaim));
        ActionMoves(s, id, b, s.nextClaim + 1);
        var n := s.(actions := s.actions[id := b], nextClaim := s.nextClaim + 1);
        ThreadStarts(n, t, Thread(id, PreviewReady(s.nextClaim, PreviewKeyOf(s, id))));
      }
    }
  }

  lemma RecoverKeeps(s: State, t: ThreadId, id: Id)
    requires Inv(s) && id in s.actions && t !in s.threads
    ensures Inv(NextRecover(s, t, id))
  {
    hide Inv;
    var a := s.actions[id];
    if InFlight(a.phase) && a.claim.Some? {
      if a.phase == Previewing && a.kind == Command {
        ThreadStarts(s, t, Thread(id, PreviewReady(a.claim.value, PreviewKeyOf(s, id))));
      } else {
        ThreadStarts(s, t, Thread(id, RecoverReady(a.claim.value, ExecutionKey(id))));
      }
    }
  }

  lemma ActionKeeps(s: State, id: Id, step: Step)
    requires Inv(s) && id in s.actions
    ensures Inv(NextAction(s, id, step))
  {
    hide Inv, NextClaimPreview, NextRecover, SetPhase, Claimed;
    var a := s.actions[id];
    match step {
      case Pause(_) => if CanLeave(a.phase) { PhaseKeeps(s, id, Paused); }
      case Cancel(_) => if CanLeave(a.phase) { PhaseKeeps(s, id, Cancelled); }
      case Handoff(_) => if CanLeave(a.phase) { PhaseKeeps(s, id, ManualHandoff); }
      case FinishManually(_) => if a.phase == ManualHandoff { PhaseKeeps(s, id, ManualCompleted); }
      case Resume(_) =>
        if a.phase == Paused {
          var b := a.(phase := Draft, version := a.version + 1);
          ActionMoves(s, id, b, s.nextClaim);
          assert s.(actions := s.actions[id := b]) == s.(actions := s.actions[id := b], nextClaim := s.nextClaim);
        }
      case ClaimPreview(t, _) => if t !in s.threads { ClaimPreviewKeeps(s, t, id); }
      case Recover(t, _) => if t !in s.threads { RecoverKeeps(s, t, id); }
      case ClaimExecute(t, _) => if t !in s.threads && a.phase == Awaiting { ClaimsToSend(s, t, id, Executing); }
      case _ =>
    }
  }

  lemma StartKeeps(s: State, id: Id, kind: Kind)
    requires Inv(s) && id !in s.actions
    ensures Inv(s.(actions := s.actions[id := Action(kind, Draft, None, 1)]))
  {
    hide EffectPosts;
    var n := s.(actions := s.actions[id := Action(kind, Draft, None, 1)]);
    assert Grows(s, n);
    forall u | u in n.threads
      ensures ThreadOk(n, n.threads[u])
    {
      assert ThreadOk(s, s.threads[u]);
      ThreadStays(s, n, s.threads[u]);
    }
    UnknownActionIsFresh(s, s.posts, id);
    forall j | j in n.actions
      ensures ActionOk(n, j)
    {
      if j != id { assert ActionOk(s, j); }
    }
    assert OneSender(n) by { hide ThreadOk; assert forall u :: MaySend(n, u) <==> MaySend(s, u); }
    RestStays(s, n);
  }

  lemma {:induction false} UnknownActionIsFresh(s: State, posts: seq<Post>, id: Id)
    requires id !in s.actions && forall i :: 0 <= i < |posts| ==> PostOk(s, posts[i])
    ensures EffectPosts(posts, id) == 0
  {
    if posts == [] {
    } else {
      var n := |posts| - 1;
      assert PostOk(s, posts[n]);
      UnknownActionIsFresh(s, posts[..n], id);
    }
  }

  lemma NextKeeps(s: State, step: Step)
    requires Inv(s)
    ensures Inv(Next(s, step))
  {
    hide Inv, NextThread, NextAction, NextServed;
    match step {
      case Start(id, kind) => if id !in s.actions { StartKeeps(s, id, kind); }
      case Commit(i) => ServedKeeps(s, i, true);
      case Refuse(i) => ServedKeeps(s, i, false);
      case Pause(id) => if id in s.actions { ActionKeeps(s, id, step); }
      case Cancel(id) => if id in s.actions { ActionKeeps(s, id, step); }
      case Handoff(id) => if id in s.actions { ActionKeeps(s, id, step); }
      case FinishManually(id) => if id in s.actions { ActionKeeps(s, id, step); }
      case Resume(id) => if id in s.actions { ActionKeeps(s, id, step); }
      case ClaimPreview(_, id) => if id in s.actions { ActionKeeps(s, id, step); }
      case ClaimExecute(_, id) => if id in s.actions { ActionKeeps(s, id, step); }
      case Recover(_, id) => if id in s.actions { ActionKeeps(s, id, step); }
      case _ => if step.t in s.threads { ThreadKeeps(s, step.t, step); }
    }
  }

  /** Over every run of every number of threads. */
  lemma {:induction false} RunKeeps(steps: seq<Step>)
    ensures Inv(Run(steps))
  {
    hide Inv, Next;
    if steps == [] {
      assert Inv(START) by { StartIsOk(); }
    } else {
      RunKeeps(steps[..|steps| - 1]);
      NextKeeps(Run(steps[..|steps| - 1]), steps[|steps| - 1]);
    }
  }

  lemma StartIsOk()
    ensures Inv(START)
  {
  }

  // ---------------------------------------------------------------- what this gives

  /** At most one effect request per action is ever sent, always under the execution key: neither
      a recovery nor a second execution confirms again. At most one commit per action happens. */
  lemma AtMostOneCommit(steps: seq<Step>, id: Id)
    ensures var s := Run(steps);
            EffectPosts(s.posts, id) <= 1
            && (forall i :: 0 <= i < |s.posts| && s.posts[i].Effect? ==>
                s.posts[i].key == ExecutionKey(s.posts[i].action))
            && forall i, j :: 0 <= i < j < |s.commits| ==> s.commits[i].action != s.commits[j].action
  {
    hide Run, Late, EffectPosts, ThreadOk;
    var s := Run(steps);
    RunKeeps(steps);
    assert forall i :: 0 <= i < |s.posts| ==> PostOk(s, s.posts[i]);
    forall i | 0 <= i < |s.commits|
      ensures s.commits[i].ExecutionKey?
    {
      assert s.commits[i] in s.commits;
      assert KeyOk(s, s.commits[i]);
    }
    if id in s.actions {
      assert ActionOk(s, id);
    } else {
      UnknownActionIsFresh(s, s.posts, id);
    }
  }

  /** A saved result is true of the other side, and as long as an action is only prepared, waiting,
      paused, cancelled or handed over, nothing was sent or committed for it. */
  lemma SavedResultsAreTrue(steps: seq<Step>, id: Id)
    requires id in Run(steps).actions
    ensures var s := Run(steps);
            var committed := ExecutionKey(id) in s.commits;
            (s.actions[id].phase == Completed ==> committed)
            && (s.actions[id].phase == NotExecuted ==> !committed)
            && (!Late(s.actions[id]) ==> !committed && EffectPosts(s.posts, id) == 0)
  {
    hide Run, EffectPosts, ThreadOk, Late;
    var s := Run(steps);
    RunKeeps(steps);
    assert ActionOk(s, id);
    if ExecutionKey(id) in s.outcomes { assert KeyOk(s, ExecutionKey(id)); }
  }

  predicate Final(p: Phase) { p == Completed || p == NotExecuted }

  lemma ThreadLeavesFinal(s: State, t: ThreadId, step: Step, id: Id)
    requires t in s.threads && id in s.actions && Final(s.actions[id].phase)
    ensures id in NextThread(s, t, step).actions && NextThread(s, t, step).actions[id].phase == s.actions[id].phase
  {
  }

  lemma ActionLeavesFinal(s: State, other: Id, step: Step, id: Id)
    requires other in s.actions && id in s.actions && Final(s.actions[id].phase)
    ensures id in NextAction(s, other, step).actions
            && NextAction(s, other, step).actions[id].phase == s.actions[id].phase
  {
  }

  lemma FinalStays(s: State, step: Step, id: Id)
    requires id in s.actions && Final(s.actions[id].phase)
    ensures id in Next(s, step).actions && Next(s, step).actions[id].phase == s.actions[id].phase
  {
    hide NextThread, NextAction;
    match step {
      case Start(_, _) =>
      case Commit(_) =>
      case Refuse(_) =>
      case Pause(j) => if j in s.actions { ActionLeavesFinal(s, j, step, id); }
      case Cancel(j) => if j in s.actions { ActionLeavesFinal(s, j, step, id); }
      case Handoff(j) => if j in s.actions { ActionLeavesFinal(s, j, step, id); }
      case FinishManually(j) => if j in s.actions { ActionLeavesFinal(s, j, step, id); }
      case Resume(j) => if j in s.actions { ActionLeavesFinal(s, j, step, id); }
      case ClaimPreview(_, j) => if j in s.actions { ActionLeavesFinal(s, j, step, id); }
      case ClaimExecute(_, j) => if j in s.actions { ActionLeavesFinal(s, j, step, id); }
      case Recover(_, j) => if j in s.actions { ActionLeavesFinal(s, j, step, id); }
      case _ => if step.t in s.threads { ThreadLeavesFinal(s, step.t, step, id); }
    }
  }

  /** Once a result was saved, no later step, late packet or repeated request makes it false. */
  lemma {:induction false} ResultsStayTrue(before: seq<Step>, after: seq<Step>, id: Id)
    requires id in Run(before).actions && Final(Run(before).actions[id].phase)
    ensures var s := Run(before + after);
            id in s.actions && s.actions[id].phase == Run(before).actions[id].phase
            && (ExecutionKey(id) in s.commits <==> s.actions[id].phase == Completed)
  {
    hide Next, Inv, Late;
    if after == [] {
      assert before + after == before;
    } else {
      var front := after[..|after| - 1];
      ResultsStayTrue(before, front, id);
      assert (before + after)[..|before + after| - 1] == before + front;
      FinalStays(Run(before + front), after[|after| - 1], id);
    }
    SavedResultsAreTrue(before + after, id);
  }
}
