/** The host operations of the property management protocol, call by call. Between any two calls
    other threads and the other side may do anything, and the host may die. */
module PmsHost {
  import opened Text
  import opened PmsOps

  function RunFrom(s: State, steps: seq<Step>): State {
    if steps == [] then s else Next(RunFrom(s, steps[..|steps| - 1]), steps[|steps| - 1])
  }

  /** The step is taken by a host thread. */
  predicate OfThread(step: Step) {
    !step.Start? && !step.Pause? && !step.Cancel? && !step.Handoff? && !step.FinishManually? && !step.Resume?
    && !step.Commit? && !step.Refuse?
  }

  predicate Leaves(me: ThreadId, steps: seq<Step>) {
    forall i :: 0 <= i < |steps| ==> OfThread(steps[i]) ==> steps[i].t != me
  }

  predicate SameThreadAt(me: ThreadId, s: State, n: State) {
    (me in n.threads <==> me in s.threads) && (me in s.threads ==> n.threads[me] == s.threads[me])
  }

  ghost predicate SameKinds(s: State, n: State) {
    forall id :: id in s.actions ==> id in n.actions && n.actions[id].kind == s.actions[id].kind
  }

  predicate KindKept(s: State, n: State, id: Id) {
    id in s.actions ==> id in n.actions && n.actions[id].kind == s.actions[id].kind
  }

  lemma ThreadLeaves(s: State, t: ThreadId, step: Step, me: ThreadId)
    requires t in s.threads && t != me
    ensures SameThreadAt(me, s, NextThread(s, t, step)) && SameKinds(s, NextThread(s, t, step))
  {
  }

  lemma ThreadKinds(s: State, t: ThreadId, step: Step)
    requires t in s.threads
    ensures SameKinds(s, NextThread(s, t, step))
  {
  }

  lemma ActionLeaves(s: State, id: Id, step: Step, me: ThreadId)
    requires id in s.actions && (OfThread(step) ==> step.t != me)
    ensures SameThreadAt(me, s, NextAction(s, id, step))
  {
  }

  lemma ActionKinds(s: State, id: Id, step: Step)
    requires id in s.actions
    ensures SameKinds(s, NextAction(s, id, step))
  {
  }

  lemma NextKinds(s: State, step: Step)
    ensures SameKinds(s, Next(s, step))
  {
    hide NextThread, NextAction;
    match step {
      case Start(_, _) =>
      case Commit(_) =>
      case Refuse(_) =>
      case Pause(id) => if id in s.actions { ActionKinds(s, id, step); }
      case Cancel(id) => if id in s.actions { ActionKinds(s, id, step); }
      case Handoff(id) => if id in s.actions { ActionKinds(s, id, step); }
      case FinishManually(id) => if id in s.actions { ActionKinds(s, id, step); }
      case Resume(id) => if id in s.actions { ActionKinds(s, id, step); }
      case ClaimPreview(_, id) => if id in s.actions { ActionKinds(s, id, step); }
      case ClaimExecute(_, id) => if id in s.actions { ActionKinds(s, id, step); }
      case Recover(_, id) => if id in s.actions { ActionKinds(s, id, step); }
      case _ => if step.t in s.threads { ThreadKinds(s, step.t, step); }
    }
  }

  lemma NextLeaves(s: State, step: Step, me: ThreadId)
    requires OfThread(step) ==> step.t != me
    ensures SameThreadAt(me, s, Next(s, step))
  {
    hide NextThread, NextAction;
    match step {
      case Start(_, _) =>
      case Commit(_) =>
      case Refuse(_) =>
      case Pause(id) => if id in s.actions { ActionLeaves(s, id, step, me); }
      case Cancel(id) => if id in s.actions { ActionLeaves(s, id, step, me); }
      case Handoff(id) => if id in s.actions { ActionLeaves(s, id, step, me); }
      case FinishManually(id) => if id in s.actions { ActionLeaves(s, id, step, me); }
      case Resume(id) => if id in s.actions { ActionLeaves(s, id, step, me); }
      case ClaimPreview(_, id) => if id in s.actions { ActionLeaves(s, id, step, me); }
      case ClaimExecute(_, id) => if id in s.actions { ActionLeaves(s, id, step, me); }
      case Recover(_, id) => if id in s.actions { ActionLeaves(s, id, step, me); }
      case _ => if step.t in s.threads { ThreadLeaves(s, step.t, step, me); }
    }
  }

  lemma ThreadPosts(s: State, t: ThreadId, step: Step)
    requires t in s.threads
    ensures s.posts <= NextThread(s, t, step).posts
  {
  }

  lemma ActionPosts(s: State, id: Id, step: Step)
    requires id in s.actions
    ensures NextAction(s, id, step).posts == s.posts
  {
  }

  lemma NextPosts(s: State, step: Step)
    ensures s.posts <= Next(s, step).posts
  {
    hide NextThread, NextAction;
    match step {
      case Start(_, _) =>
      case Commit(_) =>
      case Refuse(_) =>
      case Pause(id) => if id in s.actions { ActionPosts(s, id, step); }
      case Cancel(id) => if id in s.actions { ActionPosts(s, id, step); }
      case Handoff(id) => if id in s.actions { ActionPosts(s, id, step); }
      case FinishManually(id) => if id in s.actions { ActionPosts(s, id, step); }
      case Resume(id) => if id in s.actions { ActionPosts(s, id, step); }
      case ClaimPreview(_, id) => if id in s.actions { ActionPosts(s, id, step); }
      case ClaimExecute(_, id) => if id in s.actions { ActionPosts(s, id, step); }
      case Recover(_, id) => if id in s.actions { ActionPosts(s, id, step); }
      case _ => if step.t in s.threads { ThreadPosts(s, step.t, step); }
    }
  }

  /** Other processes keep the invariant, the kinds, and the thread of this host; what is on the
      wire stays there. */
  lemma {:induction false} OthersKeep(s: State, steps: seq<Step>, me: ThreadId)
    requires Inv(s) && Leaves(me, steps)
    ensures Inv(RunFrom(s, steps)) && SameThreadAt(me, s, RunFrom(s, steps)) && SameKinds(s, RunFrom(s, steps))
    ensures s.posts <= RunFrom(s, steps).posts
  {
    hide Inv, Next;
    if steps == [] {
    } else {
      var n := |steps| - 1;
      OthersKeep(s, steps[..n], me);
      NextKeeps(RunFrom(s, steps[..n]), steps[n]);
      NextLeaves(RunFrom(s, steps[..n]), steps[n], me);
      NextKinds(RunFrom(s, steps[..n]), steps[n]);
      NextPosts(RunFrom(s, steps[..n]), steps[n]);
    }
  }

  // ---------------------------------------------------------------- one step of a thread

  /** A step that moves a thread which is already there. */
  predicate Proceeds(step: Step, t: ThreadId) {
    OfThread(step) && step.t == t && !step.ClaimPreview? && !step.ClaimExecute? && !step.Recover?
  }

  /** A thread never changes its action. */
  lemma KeepsAction(s: State, t: ThreadId, step: Step)
    requires t in s.threads && Proceeds(step, t)
    ensures t in Next(s, step).threads ==> Next(s, step).threads[t].action == s.threads[t].action
  {
    hide NextAction;
  }

  function PhaseFor(o: Outcome): Phase { if o == Executed then Completed else NotExecuted }

  /** What a thread has learned when it ends. */
  datatype Report = NotSaved | SavedUnknown | Saved(outcome: Outcome)

  /** A saved outcome is the recorded one and the action stands in its phase; after an unknown one
      the action waits for a recovery, or somebody else has saved the outcome. */
  predicate Reported(s: State, id: Id, report: Report) {
    match report
    case NotSaved => true
    case SavedUnknown => id in s.actions && Late(s.actions[id]) && s.actions[id].phase != Executing
    case Saved(o) =>
      id in s.actions && s.actions[id].phase == PhaseFor(o)
      && ExecutionKey(id) in s.outcomes && s.outcomes[ExecutionKey(id)] == o
  }

  function ReportOf(result: Option<Outcome>): Report {
    match result case Some(o) => Saved(o) case None => SavedUnknown
  }

  /** A thread that saves its result always succeeds, or finds that the same was saved before. */
  lemma StoreSaves(s: State, t: ThreadId)
    requires Inv(s) && t in s.threads && s.threads[t].pc.SaveResult?
    ensures Reported(Next(s, StoreResult(t)), s.threads[t].action, ReportOf(s.threads[t].pc.result))
  {
    hide OneSender, WireOk, PmsOk, EffectPosts;
    assert ThreadOk(s, s.threads[t]);
    assert ActionOk(s, s.threads[t].action);
  }

  /** What a thread that is about to send puts on the wire. */
  lemma PostsWhat(s: State, t: ThreadId, step: Step)
    requires Inv(s) && t in s.threads
    ensures var th := s.threads[t];
            var key := ExecutionKey(th.action);
            (th.pc.EffectReady? && step == SendEffect(t) ==> Effect(th.action, key) in Next(s, step).posts)
            && (th.pc.ResolveReady? && step == SendResolve(t) ==> Resolve(th.action, key) in Next(s, step).posts)
  {
    hide OneSender, WireOk, PmsOk, EffectPosts, ActionsOk, Holds;
    assert ThreadOk(s, s.threads[t]);
  }

  // ---------------------------------------------------------------- the other side

  lemma ThreadOutcomes(s: State, t: ThreadId, step: Step)
    requires t in s.threads
    ensures NextThread(s, t, step).outcomes == s.outcomes
  {
  }

  lemma ActionOutcomes(s: State, id: Id, step: Step)
    requires id in s.actions
    ensures NextAction(s, id, step).outcomes == s.outcomes
  {
  }

  lemma OutcomeStays(s: State, step: Step, key: Key)
    requires key in s.outcomes
    ensures key in Next(s, step).outcomes && Next(s, step).outcomes[key] == s.outcomes[key]
  {
    hide NextThread, NextAction;
    match step {
      case Start(_, _) =>
      case Commit(_) =>
      case Refuse(_) =>
      case Pause(id) => if id in s.actions { ActionOutcomes(s, id, step); }
      case Cancel(id) => if id in s.actions { ActionOutcomes(s, id, step); }
      case Handoff(id) => if id in s.actions { ActionOutcomes(s, id, step); }
      case FinishManually(id) => if id in s.actions { ActionOutcomes(s, id, step); }
      case Resume(id) => if id in s.actions { ActionOutcomes(s, id, step); }
      case ClaimPreview(_, id) => if id in s.actions { ActionOutcomes(s, id, step); }
      case ClaimExecute(_, id) => if id in s.actions { ActionOutcomes(s, id, step); }
      case Recover(_, id) => if id in s.actions { ActionOutcomes(s, id, step); }
      case _ => if step.t in s.threads { ThreadOutcomes(s, step.t, step); }
    }
  }

  lemma {:induction false} OutcomesStay(s: State, steps: seq<Step>, key: Key)
    requires Inv(s) && key in s.outcomes
    ensures key in RunFrom(s, steps).outcomes && RunFrom(s, steps).outcomes[key] == s.outcomes[key]
    ensures Inv(RunFrom(s, steps))
  {
    hide Next, Inv;
    if steps == [] {
    } else {
      var n := |steps| - 1;
      OutcomesStay(s, steps[..n], key);
      OutcomeStays(RunFrom(s, steps[..n]), steps[n], key);
      NextKeeps(RunFrom(s, steps[..n]), steps[n]);
    }
  }

  lemma NotCommitted(s: State, key: Key)
    requires Inv(s) && key in s.outcomes && s.outcomes[key] == Refused
    ensures key !in s.commits
  {
  }

  lemma ServedCloses(s: State, i: nat, id: Id)
    requires i < |s.posts| && s.posts[i] == Resolve(id, ExecutionKey(id)) && ExecutionKey(id) !in s.outcomes
    ensures var n := Next(s, Refuse(i)); ExecutionKey(id) in n.outcomes && n.outcomes[ExecutionKey(id)] == Refused
  {
  }

  /** A resolve request that the other side handles before the effect request closes the key for
      good: whatever is still on the wire, and whatever any host does, nothing is ever committed. */
  lemma ResolveCloses(s: State, i: nat, id: Id, steps: seq<Step>)
    requires Inv(s) && i < |s.posts| && s.posts[i] == Resolve(id, ExecutionKey(id)) && ExecutionKey(id) !in s.outcomes
    ensures var n := RunFrom(Next(s, Refuse(i)), steps);
            ExecutionKey(id) !in n.commits && ExecutionKey(id) in n.outcomes
            && n.outcomes[ExecutionKey(id)] == Refused
  {
    hide Next, Inv;
    NextKeeps(s, Refuse(i));
    ServedCloses(s, i, id);
    OutcomesStay(Next(s, Refuse(i)), steps, ExecutionKey(id));
    NotCommitted(RunFrom(Next(s, Refuse(i)), steps), ExecutionKey(id));
  }

  /** What the world does before the n-th call, and whether the host survives to make it. */
  datatype World = World(others: nat -> seq<Step>, alive: nat -> bool)

  /** What the call after these ones finds, if they are made from s with the n-th call. */
  ghost function Found(w: World, s: State, n: nat, steps: seq<Step>): State
    decreases |steps|
  {
    var mid := RunFrom(s, w.others(n));
    if steps == [] then mid else Found(w, Next(mid, steps[0]), n + 1, steps[1..])
  }

  lemma FoundNext(w: World, s: State, n: nat, first: Step, rest: seq<Step>)
    ensures Found(w, s, n, [first] + rest) == Found(w, Next(Found(w, s, n, []), first), n + 1, rest)
  {
    hide Next, RunFrom;
    assert ([first] + rest)[1..] == rest;
  }

  /** The action still waits for the preview that this claim was given out for. */
  predicate Waits(s: State, id: Id, claim: nat) {
    id in s.actions && s.actions[id].phase == Previewing && s.actions[id].claim == Some(claim)
  }

  /** What an answer to a preview makes of its action, if the claim stands when it is stored: an
      answered preview waits for a person, a rejected one is final. A stale claim changes nothing,
      and neither does a lost answer. */
  predicate PreviewStored(answer: PreviewAnswer, at: State, id: Id, claim: nat, s: State) {
    if answer != Lost && Waits(at, id, claim) then
      s.actions == at.actions[id := if answer == Rejected then at.actions[id].(phase := PreviewRejected)
                                    else at.actions[id].(phase := Awaiting, claim := None)]
    else s.actions == at.actions
  }

  ghost predicate Fair(me: ThreadId, w: World) { forall n: nat :: Leaves(me, w.others(n)) }

  /** `Operations`: one host thread working through its calls. `calls` lists them. */
  class Operations {
    const me: ThreadId
    const w: World
    var s: State
    var n: nat
    var calls: seq<Step>

    constructor (me: ThreadId, w: World, s: State)
      ensures this.me == me && this.w == w && this.s == s && n == 0 && calls == []
    {
      this.me, this.w, this.s, n, calls := me, w, s, 0, [];
    }

    /** Some new calls were made, none of them the request with an effect. */
    predicate Harmless(before: seq<Step>)
      reads this
    {
      before <= calls && forall i :: |before| <= i < |calls| ==> !calls[i].SendEffect? && !calls[i].ClaimExecute?
    }

    ghost predicate Ready()
      reads this
    {
      Inv(s) && Fair(me, w)
    }

    /** Where this host's thread stands, if it is there. */
    predicate Stands(pc: Pc)
      reads this
    {
      me in s.threads && s.threads[me].pc == pc
    }

    /** The host survived all calls from one number to the other. */
    ghost predicate Alive(from: nat, to: nat) { forall k: nat :: from <= k < to ==> w.alive(k) }

    /** Among the new calls is this one. */
    predicate Makes(before: seq<Step>, step: Step)
      reads this
    {
      exists i :: |before| <= i < |calls| && calls[i] == step
    }

    /** An action that was found as a draft has been pursued: a command was previewed, and the
        answer stored as what it was; a quote was sent. `at` is what the storing call found. */
    ghost predicate Pursued(before: seq<Step>, found: State, at: State, id: Id, sends: bool, answer: PreviewAnswer)
      requires id in found.actions
      reads this
    {
      if found.actions[id].kind == Command then
        Makes(before, SendPreview(me)) && PreviewStored(answer, at, id, found.nextClaim, s)
      else sends ==> Sends(before)
    }

    /** The calls of a preview before its answer is stored; a lost answer is not stored. */
    ghost function Asking(answer: PreviewAnswer): seq<Step> {
      if answer == Lost then [SendPreview(me)] else [SendPreview(me), AnswerPreview(me, answer)]
    }

    /** The others run, then one call; or the host dies instead. */
    method Call(step: Step) returns (ok: bool)
      requires Ready()
      modifies this`s, this`n, this`calls
      ensures Ready() && calls == old(calls) + [if ok then step else Die(me)]
      ensures ok == w.alive(old(n)) && n == old(n) + 1
      ensures var mid := Found(w, old(s), old(n), []);
              Inv(mid) && SameThreadAt(me, old(s), mid) && SameKinds(old(s), s)
              && s == Next(mid, if ok then step else Die(me))
      ensures old(s).posts <= s.posts
    {
      hide Inv, Next;
      assert Leaves(me, w.others(n));
      OthersKeep(s, w.others(n), me);
      s := RunFrom(s, w.others(n));
      ok := w.alive(n);
      n := n + 1;
      var taken := if ok then step else Die(me);
      NextKeeps(s, taken);
      NextKinds(s, taken);
      NextPosts(s, taken);
      s := Next(s, taken);
      calls := calls + [taken];
    }

    /** This host's thread works on the action, if it is there at all. */
    predicate WorksOn(id: Id)
      reads this
    {
      me in s.threads ==> s.threads[me].action == id
    }

    /** A call whose effect is looked at afterwards. */
    method Take(step: Step, ghost id: Id) returns (ok: bool)
      requires Ready() && me in s.threads && WorksOn(id) && Proceeds(step, me)
      modifies this`s, this`n, this`calls
      ensures Ready() && calls == old(calls) + [if ok then step else Die(me)]
      ensures ok == w.alive(old(n)) && n == old(n) + 1
      ensures s == Next(Found(w, old(s), old(n), []), if ok then step else Die(me))
      ensures var mid := Found(w, old(s), old(n), []);
              Inv(mid) && SameThreadAt(me, old(s), mid) && KindKept(old(s), mid, id)
      ensures WorksOn(id) && old(s).posts <= s.posts && KindKept(old(s), s, id)
    {
      hide Inv, Next;
      ghost var mid := Found(w, s, n, []);
      if id in s.actions { FoundKnown(w, s, n, me, id); }
      ok := Call(step);
      KeepsAction(mid, me, if ok then step else Die(me));
    }

    /** Save the result of this thread. */
    method Save(ghost id: Id) returns (report: Report)
      requires Ready() && HasResult() && WorksOn(id)
      modifies this`s, this`n, this`calls
      ensures Ready() && calls == old(calls) + [if report != NotSaved then StoreResult(me) else Die(me)]
      ensures Reported(s, id, report) && n == old(n) + 1
      ensures report == if w.alive(old(n)) then ReportOf(old(s).threads[me].pc.result) else NotSaved
      ensures old(s).posts <= s.posts && KindKept(old(s), s, id)
    {
      hide Inv, Next, Late;
      ghost var mid := Found(w, s, n, []);
      report := ReportOf(s.threads[me].pc.result);
      var ok := Call(StoreResult(me));
      StoreSaves(mid, me);
      if !ok { report := NotSaved; }
    }

    /** A call that moves this host's thread from one point to the next. */
    method Move(from: Pc, step: Step, to: Pc, ghost id: Id) returns (ok: bool)
      requires Ready() && Stands(from) && WorksOn(id) && OfThread(step) && step.t == me && !step.Die?
      requires step.SendPreview? || step.SendEffect? || step.SendResolve? || step.QueryUnknown? || step.ResolveUnknown?
               || step.AnswerPreview?
      requires Moves(from, step, to)
      modifies this`s, this`n, this`calls
      ensures Ready() && calls == old(calls) + [if ok then step else Die(me)]
      ensures ok == w.alive(old(n)) && n == old(n) + 1
      ensures s == Next(Found(w, old(s), old(n), []), if ok then step else Die(me))
      ensures ok ==> Stands(to)
      ensures WorksOn(id) && old(s).posts <= s.posts && KindKept(old(s), s, id)
      ensures ok && step.SendEffect? ==> Effect(id, ExecutionKey(id)) in s.posts
      ensures ok && step.SendResolve? ==> Resolve(id, ExecutionKey(id)) in s.posts
    {
      hide Inv, Next, RunFrom;
      ghost var mid := Found(w, s, n, []);
      ok := Call(step);
      ghost var taken := if ok then step else Die(me);
      KeepsAction(mid, me, taken);
      PostsWhat(mid, me, taken);
      MoveMoves(mid, me, from, step, to);
    }

    /** Ask for a preview and store what comes of it. */
    method AskPreview(answer: PreviewAnswer, ghost id: Id)
      requires Ready() && me in s.threads && s.threads[me].pc.PreviewReady? && WorksOn(id)
      modifies this`s, this`n, this`calls
      ensures Ready() && Harmless(old(calls)) && KindKept(old(s), s, id) && old(n) < n
      ensures Alive(old(n), n) ==>
                Makes(old(calls), SendPreview(me))
                && PreviewStored(answer, Found(w, old(s), old(n), Asking(answer)), id, old(s).threads[me].pc.claim, s)
    {
      hide Inv, Next, Found, PreviewStored;
      var pc := s.threads[me].pc;
      var ok := Move(pc, SendPreview(me), PreviewSent(pc.claim), id);
      assert calls[|old(calls)|] == if ok then SendPreview(me) else Die(me);
      if ok {
        FoundNext(w, old(s), old(n), SendPreview(me), if answer == Lost then [] else [AnswerPreview(me, answer)]);
        assert [SendPreview(me)] + (if answer == Lost then [] else [AnswerPreview(me, answer)]) == Asking(answer);
        AwaitPreview(answer, pc.claim, id);
      }
    }

    method AwaitPreview(answer: PreviewAnswer, claim: nat, ghost id: Id)
      requires Ready() && Stands(PreviewSent(claim)) && WorksOn(id)
      modifies this`s, this`n, this`calls
      ensures Ready() && Harmless(old(calls)) && KindKept(old(s), s, id) && old(n) <= n
      ensures Alive(old(n), n) ==>
                PreviewStored(answer,
                              Found(w, old(s), old(n), if answer == Lost then [] else [AnswerPreview(me, answer)]),
                              id, claim, s)
    {
      hide Inv, Next, Found, PreviewStored;
      var ok;
      if answer == Lost {
        ghost var mid := Found(w, s, n, []);
        ok := Take(AnswerPreview(me, Lost), id);
        LosingChangesNothing(mid, me, id, claim);
        return;
      }
      var to := if answer == Previewed then SavePreview(claim) else RejectPreview(claim);
      ok := Move(PreviewSent(claim), AnswerPreview(me, answer), to, id);
      if ok {
        FoundNext(w, old(s), old(n), AnswerPreview(me, answer), []);
        assert [AnswerPreview(me, answer)] + [] == [AnswerPreview(me, answer)];
        ghost var mid := Found(w, s, n, []);
        ok := Take(StorePreview(me), id);
        AnswerIsStored(mid, me, claim, answer);
      }
    }

    /** New calls with at most one effect request among them. */
    predicate AtMostOneEffect(before: seq<Step>)
      reads this
    {
      before <= calls
      && forall i, j :: |before| <= i < j < |calls| ==> !calls[i].SendEffect? || !calls[j].SendEffect?
    }

    predicate HasResult()
      reads this
    {
      me in s.threads && s.threads[me].pc.SaveResult?
    }

    /** Among the new calls is the effect request. */
    predicate Sends(before: seq<Step>)
      reads this
    {
      exists i :: |before| <= i < |calls| && calls[i].SendEffect?
    }

    /** Send the effect request once, unless it fails before it is sent; save the answer, or that
        there is none. */
    method SendAndStore(sends: bool, answered: bool, ghost id: Id) returns (report: Report)
      requires Ready() && me in s.threads && s.threads[me].pc.EffectReady? && WorksOn(id)
      modifies this`s, this`n, this`calls
      ensures Ready() && AtMostOneEffect(old(calls)) && Reported(s, id, report)
      ensures Sends(old(calls)) ==> Effect(id, ExecutionKey(id)) in s.posts
      ensures KindKept(old(s), s, id) && old(n) < n
      ensures Alive(old(n), n) ==>
                (sends ==> Sends(old(calls)))
                && (id in old(s).actions && old(s).actions[id].kind == Command ==> report != NotSaved)
      ensures Alive(old(n), n) && sends && answered
              && ExecutionKey(id) in Found(w, old(s), old(n), [SendEffect(me)]).outcomes ==>
                report == Saved(Found(w, old(s), old(n), [SendEffect(me)]).outcomes[ExecutionKey(id)])
    {
      hide Inv, Next, Late, Found;
      var ok := true;
      if sends {
        var pc := s.threads[me].pc;
        ok := Move(pc, SendEffect(me), EffectSent(pc.claim, pc.key), id);
        assert calls[|old(calls)|] == if ok then SendEffect(me) else Die(me);
        if !ok { return NotSaved; }
        FoundNext(w, old(s), old(n), SendEffect(me), []);
        assert [SendEffect(me)] + [] == [SendEffect(me)];
      }
      report := Conclude(sends && answered, id);
    }

    /** The answer to an effect request, or that there is none. */
    method Conclude(answered: bool, ghost id: Id) returns (report: Report)
      requires Ready() && me in s.threads && WorksOn(id)
      requires s.threads[me].pc.EffectReady? || s.threads[me].pc.EffectSent?
      requires answered ==> s.threads[me].pc.EffectSent?
      modifies this`s, this`n, this`calls
      ensures Ready() && Harmless(old(calls)) && Reported(s, id, report) && old(s).posts <= s.posts
      ensures KindKept(old(s), s, id) && old(n) < n
      ensures Alive(old(n), n) && id in old(s).actions && old(s).actions[id].kind == Command ==> report != NotSaved
      ensures Alive(old(n), n) && answered && ExecutionKey(id) in Found(w, old(s), old(n), []).outcomes ==>
                report == Saved(Found(w, old(s), old(n), []).outcomes[ExecutionKey(id)])
    {
      hide Inv, Next, Late, Found;
      var ok := true;
      if answered { ok := Answer(AnswerEffect(me), id); }
      if ok && !HasResult() { ok := Lose(id); }
      report := NotSaved;
      if ok && HasResult() { report := Save(id); }
    }

    /** Give up waiting: for a command there is then an unknown result to save. */
    method Lose(ghost id: Id) returns (ok: bool)
      requires Ready() && me in s.threads && WorksOn(id)
      requires s.threads[me].pc.EffectReady? || s.threads[me].pc.EffectSent?
      modifies this`s, this`n, this`calls
      ensures Ready() && calls == old(calls) + [if ok then LoseEffect(me) else Die(me)]
      ensures ok == w.alive(old(n)) && n == old(n) + 1
      ensures WorksOn(id) && old(s).posts <= s.posts && KindKept(old(s), s, id)
      ensures ok && id in old(s).actions && old(s).actions[id].kind == Command ==> HasResult()
    {
      hide Inv, Next, Found;
      ghost var mid := Found(w, s, n, []);
      ok := Take(LoseEffect(me), id);
      LoseSaves(mid, me);
    }

    /** `execute`: one effect request under the execution key, and a saved outcome is the recorded
        one. When the claim is granted and the host survives, a result is saved: the recorded
        outcome if there is one when the answer arrives. */
    method Execute(id: Id, sends: bool, answered: bool) returns (report: Report)
      requires Ready() && me !in s.threads && id in s.actions
      modifies this`s, this`n, this`calls
      ensures Ready() && AtMostOneEffect(old(calls)) && Reported(s, id, report)
      ensures Sends(old(calls)) ==> Effect(id, ExecutionKey(id)) in s.posts
      ensures var found := Found(w, old(s), old(n), []);
              id in found.actions
              && (found.actions[id].phase == Awaiting && Alive(old(n), n) ==>
                    report != NotSaved && (sends ==> Sends(old(calls))))
              && (found.actions[id].phase != Awaiting ==> report == NotSaved && !Sends(old(calls)))
      ensures var found, heard := Found(w, old(s), old(n), []),
                                  Found(w, old(s), old(n), [ClaimExecute(me, id), SendEffect(me)]);
              id in found.actions && found.actions[id].phase == Awaiting && Alive(old(n), n)
              && sends && answered && ExecutionKey(id) in heard.outcomes ==>
                report == Saved(heard.outcomes[ExecutionKey(id)])
    {
      hide Inv, Next, Late, Found;
      ghost var mid := Found(w, s, n, []);
      assert id in mid.actions by { FoundKnown(w, s, n, me, id); }
      var ok := Call(ClaimExecute(me, id));
      ClaimsExecute(mid, me, id);
      if !ok || me !in s.threads { return NotSaved; }
      AfterClaimExecute(mid, me, id);
      FoundNext(w, old(s), old(n), ClaimExecute(me, id), [SendEffect(me)]);
      assert [ClaimExecute(me, id)] + [SendEffect(me)] == [ClaimExecute(me, id), SendEffect(me)];
      report := SendAndStore(sends, answered, id);
    }

    /** `_preview_action`: a command is only previewed, a quote is its own effect. A draft is
        pursued if the host survives, and nothing else is. */
    method PreviewAction(id: Id, sends: bool, answered: bool, answer: PreviewAnswer) returns (report: Report)
      requires Ready() && me !in s.threads && id in s.actions
      modifies this`s, this`n, this`calls
      ensures Ready() && AtMostOneEffect(old(calls)) && Reported(s, id, report)
      ensures Sends(old(calls)) ==> Effect(id, ExecutionKey(id)) in s.posts
      ensures old(s).actions[id].kind == Command ==> Harmless(old(calls)) && report == NotSaved
      ensures KindKept(old(s), s, id) && old(n) < n
      ensures var found := Found(w, old(s), old(n), []);
              id in found.actions
              && (found.actions[id].phase == Draft && Alive(old(n), n) ==>
                    Pursued(old(calls), found, Found(w, old(s), old(n), [ClaimPreview(me, id)] + Asking(answer)), id,
                            sends, answer))
    {
      hide Inv, Next, Late, Found, PreviewStored, Asking;
      report := NotSaved;
      ghost var mid := Found(w, s, n, []);
      assert id in mid.actions && mid.actions[id].kind == s.actions[id].kind by { FoundKnown(w, s, n, me, id); }
      var ok := Call(ClaimPreview(me, id));
      ClaimsPreview(mid, me, id);
      if !ok || me !in s.threads { return; }
      AfterClaimPreview(mid, me, id);
      FoundNext(w, old(s), old(n), ClaimPreview(me, id), Asking(answer));
      if s.threads[me].pc.EffectReady? {
        report := SendAndStore(sends, answered, id);
      } else {
        AskPreview(answer, id);
      }
    }

    /** `prepare`: start the action, or find it there; only a draft is previewed, and a draft is. */
    method PrepareAction(id: Id, kind: Kind, sends: bool, answered: bool, answer: PreviewAnswer)
      returns (report: Report)
      requires Ready() && me !in s.threads
      modifies this`s, this`n, this`calls
      ensures Ready() && AtMostOneEffect(old(calls)) && Reported(s, id, report)
      ensures Sends(old(calls)) ==> Effect(id, ExecutionKey(id)) in s.posts
      ensures id in s.actions && s.actions[id].kind == Command ==> Harmless(old(calls))
      ensures var started := Next(Found(w, old(s), old(n), []), Start(id, kind));
              var found := Found(w, old(s), old(n), [Start(id, kind)]);
              id in started.actions && (w.alive(old(n)) ==> id in s.actions)
              && (started.actions[id].phase == Draft && id in found.actions && found.actions[id].phase == Draft
                  && Alive(old(n), n) ==>
                    Pursued(old(calls), found,
                            Found(w, old(s), old(n), [Start(id, kind)] + ([ClaimPreview(me, id)] + Asking(answer))), id,
                            sends, answer))
    {
      hide Inv, Next, Late, Found, PreviewStored, Asking;
      ghost var mid := Found(w, s, n, []);
      StartLeavesThreads(mid, me, id, kind);
      var ok := Call(Start(id, kind));
      if !ok { return NotSaved; }
      FoundNext(w, old(s), old(n), Start(id, kind), []);
      assert [Start(id, kind)] + [] == [Start(id, kind)];
      FoundNext(w, old(s), old(n), Start(id, kind), [ClaimPreview(me, id)] + Asking(answer));
      if s.actions[id].phase != Draft { return NotSaved; }
      report := PreviewAction(id, sends, answered, answer);
    }

    /** `resume`: a fresh preview. */
    method ResumeAction(id: Id, sends: bool, answered: bool, answer: PreviewAnswer) returns (report: Report)
      requires Ready() && me !in s.threads && id in s.actions
      modifies this`s, this`n, this`calls
      ensures Ready() && AtMostOneEffect(old(calls)) && Reported(s, id, report)
      ensures Sends(old(calls)) ==> Effect(id, ExecutionKey(id)) in s.posts
      ensures old(s).actions[id].kind == Command ==> Harmless(old(calls))
      ensures var found := Found(w, old(s), old(n), [Resume(id)]);
              w.alive(old(n)) ==>
                id in found.actions && Makes(old(calls), Resume(id))
                && (found.actions[id].phase == Draft && Alive(old(n), n) ==>
                      Pursued(old(calls), found,
                              Found(w, old(s), old(n), [Resume(id)] + ([ClaimPreview(me, id)] + Asking(answer))), id,
                              sends, answer))
    {
      hide Inv, Next, Late, Found, PreviewStored, Asking;
      ghost var mid := Found(w, s, n, []);
      var ok := Call(Resume(id));
      assert calls[|old(calls)|] == if ok then Resume(id) else Die(me);
      if !ok { return NotSaved; }
      ResumeLeavesThreads(mid, me, id);
      FoundNext(w, old(s), old(n), Resume(id), []);
      assert [Resume(id)] + [] == [Resume(id)];
      FoundNext(w, old(s), old(n), Resume(id), [ClaimPreview(me, id)] + Asking(answer));
      report := PreviewAction(id, sends, answered, answer);
    }

    /** `client.recover`: look the outcome up, and ask to close the key if there is none. It never
        sends an effect request; when the outcome stays unknown, the closing request is out. A host
        that survives saves what it has found: the recorded outcome, if there is one. */
    method LookUp(known: bool, resolved: bool, ghost id: Id) returns (report: Report)
      requires Ready() && me in s.threads && s.threads[me].pc.RecoverReady? && WorksOn(id)
      modifies this`s, this`n, this`calls
      ensures Ready() && Harmless(old(calls)) && Reported(s, id, report)
      ensures report == SavedUnknown ==> Resolve(id, ExecutionKey(id)) in s.posts
      ensures Alive(old(n), n) ==> report != NotSaved
      ensures Alive(old(n), n) && known && ExecutionKey(id) in Found(w, old(s), old(n), []).outcomes ==>
                report == Saved(Found(w, old(s), old(n), []).outcomes[ExecutionKey(id)])
    {
      hide Inv, Next, Late, Found;
      report := NotSaved;
      var ok := true;
      if known {
        ok := Answer(AnswerQuery(me), id);
      }
      if ok && s.threads[me].pc.RecoverReady? {
        ok := ResolveKey(resolved, id);
      }
      if ok && HasResult() { report := Save(id); }
    }

    /** Ask for the outcome: the thread gets the recorded one, or stands where it stood. */
    method Answer(step: Step, ghost id: Id) returns (ok: bool)
      requires Ready() && me in s.threads && WorksOn(id) && Proceeds(step, me)
      requires Asks(step, s.threads[me].pc)
      modifies this`s, this`n, this`calls
      ensures Ready() && calls == old(calls) + [if ok then step else Die(me)]
      ensures ok == w.alive(old(n)) && n == old(n) + 1
      ensures WorksOn(id) && old(s).posts <= s.posts && KindKept(old(s), s, id)
      ensures ok ==> me in s.threads
                     && (s.threads[me] == old(s).threads[me] || (HasResult() && s.threads[me].pc.result.Some?))
      ensures var found := Found(w, old(s), old(n), []);
              ok && ExecutionKey(id) in found.outcomes ==>
                HasResult() && s.threads[me].pc.result == Some(found.outcomes[ExecutionKey(id)])
    {
      hide Inv, Next, Found;
      ghost var mid := Found(w, s, n, []);
      ok := Call(step);
      KeepsAction(mid, me, if ok then step else Die(me));
      AnswersOrStays(mid, me, step);
    }

    /** Ask the other side to close the key, and take what it answers. */
    method ResolveKey(resolved: bool, ghost id: Id) returns (ok: bool)
      requires Ready() && me in s.threads && s.threads[me].pc.RecoverReady? && WorksOn(id)
      modifies this`s, this`n, this`calls
      ensures Ready() && Harmless(old(calls)) && WorksOn(id)
      ensures ok ==> HasResult() && Resolve(id, ExecutionKey(id)) in s.posts
      ensures old(n) <= n && (Alive(old(n), n) ==> ok)
    {
      hide Inv, Next, Found;
      var pc := s.threads[me].pc;
      ok := Move(pc, QueryUnknown(me), ResolveReady(pc.claim, pc.key), id);
      if ok { ok := Move(ResolveReady(pc.claim, pc.key), SendResolve(me), ResolveSent(pc.claim, pc.key), id); }
      if ok { ok := AwaitResolve(resolved, id); }
    }

    method AwaitResolve(resolved: bool, ghost id: Id) returns (ok: bool)
      requires Ready() && me in s.threads && s.threads[me].pc.ResolveSent? && WorksOn(id)
      modifies this`s, this`n, this`calls
      ensures Ready() && Harmless(old(calls)) && WorksOn(id) && old(s).posts <= s.posts
      ensures ok ==> HasResult()
      ensures old(n) <= n && (Alive(old(n), n) ==> ok)
    {
      hide Inv, Next, Found;
      var pc := s.threads[me].pc;
      ok := true;
      if resolved { ok := Answer(AnswerResolve(me), id); }
      if ok && Stands(pc) { ok := Move(pc, ResolveUnknown(me), SaveResult(pc.claim, None), id); }
    }

    /** `recover`: for a command it never sends an effect request. An action in flight is followed
        up if the host survives: a lost preview is asked for again, and otherwise the outcome is
        looked up and saved. */
    method RecoverAction(id: Id, sends: bool, answered: bool, answer: PreviewAnswer, known: bool, resolved: bool)
      returns (report: Report)
      requires Ready() && me !in s.threads && id in s.actions
      modifies this`s, this`n, this`calls
      ensures Ready() && AtMostOneEffect(old(calls)) && Reported(s, id, report)
      ensures old(s).actions[id].kind == Command ==> Harmless(old(calls))
      ensures old(s).actions[id].kind == Command && report == SavedUnknown ==> Resolve(id, ExecutionKey(id)) in s.posts
      ensures var found := Found(w, old(s), old(n), []);
              id in found.actions
              && (old(s).actions[id].phase == Draft && found.actions[id].phase == Draft && Alive(old(n), n) ==>
                    Pursued(old(calls), found, Found(w, old(s), old(n), [ClaimPreview(me, id)] + Asking(answer)), id,
                            sends, answer))
              && (old(s).actions[id].phase != Draft && InFlight(found.actions[id].phase)
                  && found.actions[id].claim.Some? && Alive(old(n), n) ==>
                    if found.actions[id].phase == Previewing && found.actions[id].kind == Command then
                      Makes(old(calls), SendPreview(me))
                      && PreviewStored(answer, Found(w, old(s), old(n), [Recover(me, id)] + Asking(answer)), id,
                                       found.actions[id].claim.value, s)
                    else report != NotSaved)
      ensures var found, heard := Found(w, old(s), old(n), []), Found(w, old(s), old(n), [Recover(me, id)]);
              old(s).actions[id].phase != Draft && id in found.actions && found.actions[id].claim.Some?
              && (found.actions[id].phase == Executing || found.actions[id].phase == Unknown)
              && Alive(old(n), n) && known && ExecutionKey(id) in heard.outcomes ==>
                report == Saved(heard.outcomes[ExecutionKey(id)])
    {
      hide Inv, Next, Late, Found, PreviewStored, Asking;
      if s.actions[id].phase == Draft {
        report := PreviewAction(id, sends, answered, answer);
        return;
      }
      report := NotSaved;
      ghost var mid := Found(w, s, n, []);
      assert id in mid.actions by { FoundKnown(w, s, n, me, id); }
      var ok := Call(Recover(me, id));
      RecoverClaims(mid, me, id);
      if !ok || me !in s.threads { return; }
      AfterRecover(mid, me, id);
      FoundNext(w, old(s), old(n), Recover(me, id), []);
      assert [Recover(me, id)] + [] == [Recover(me, id)];
      FoundNext(w, old(s), old(n), Recover(me, id), Asking(answer));
      if s.threads[me].pc.PreviewReady? { AskPreview(answer, id); } else { report := LookUp(known, resolved, id); }
    }
  }

  lemma FoundKnown(w: World, s: State, n: nat, me: ThreadId, id: Id)
    requires Inv(s) && Fair(me, w) && id in s.actions
    ensures KindKept(s, Found(w, s, n, []), id)
  {
    hide Inv, RunFrom;
    assert Leaves(me, w.others(n));
    KnownStays(s, w.others(n), me, id);
  }

  /** An execution is claimed by a thread that is not there yet exactly if the action waits for it. */
  lemma ClaimsExecute(s: State, me: ThreadId, id: Id)
    requires Inv(s) && me !in s.threads && id in s.actions
    ensures var n := Next(s, ClaimExecute(me, id));
            (me in n.threads <==> s.actions[id].phase == Awaiting)
            && (me in n.threads ==> id in n.actions && n.actions[id].kind == Command)
  {
    hide ThreadsOk, OneSender, WireOk, PmsOk, EffectPosts;
    assert ActionOk(s, id);
  }

  lemma ClaimsPreview(s: State, me: ThreadId, id: Id)
    requires me !in s.threads && id in s.actions
    ensures me in Next(s, ClaimPreview(me, id)).threads <==> s.actions[id].phase == Draft
  {
  }

  lemma RecoverClaims(s: State, me: ThreadId, id: Id)
    requires me !in s.threads && id in s.actions
    ensures var n := Next(s, Recover(me, id));
            (me in n.threads <==> InFlight(s.actions[id].phase) && s.actions[id].claim.Some?)
  {
  }

  /** A thread that heard an answer stores it as what it was. */
  lemma AnswerIsStored(s: State, t: ThreadId, claim: nat, answer: PreviewAnswer)
    requires t in s.threads && answer != Lost
    requires s.threads[t].pc == if answer == Rejected then RejectPreview(claim) else SavePreview(claim)
    ensures PreviewStored(answer, s, s.threads[t].action, claim, Next(s, StorePreview(t)))
  {
  }

  lemma LosingChangesNothing(s: State, t: ThreadId, id: Id, claim: nat)
    requires t in s.threads && s.threads[t].pc == PreviewSent(claim)
    ensures PreviewStored(Lost, s, id, claim, Next(s, AnswerPreview(t, Lost)))
  {
  }

  lemma LoseSaves(s: State, t: ThreadId)
    requires t in s.threads && (s.threads[t].pc.EffectReady? || s.threads[t].pc.EffectSent?)
    ensures var n, id := Next(s, LoseEffect(t)), s.threads[t].action;
            id in s.actions && s.actions[id].kind == Command ==> t in n.threads && n.threads[t].pc.SaveResult?
  {
    hide NextAction;
  }

  /** The step asks for the outcome of the key that the thread holds. */
  predicate Asks(step: Step, pc: Pc) {
    || (step.AnswerQuery? && pc.RecoverReady?) || (step.AnswerResolve? && pc.ResolveSent?)
    || (step.AnswerEffect? && pc.EffectSent?)
  }

  lemma KnownStays(s: State, steps: seq<Step>, me: ThreadId, id: Id)
    requires Inv(s) && Leaves(me, steps) && id in s.actions
    ensures id in RunFrom(s, steps).actions && RunFrom(s, steps).actions[id].kind == s.actions[id].kind
  {
    hide Inv, Next;
    OthersKeep(s, steps, me);
  }

  lemma AfterClaimExecute(s: State, me: ThreadId, id: Id)
    requires me !in s.threads && id in s.actions && me in Next(s, ClaimExecute(me, id)).threads
    ensures Next(s, ClaimExecute(me, id)).threads[me].pc.EffectReady?
    ensures Next(s, ClaimExecute(me, id)).threads[me].action == id
  {
  }

  lemma AfterClaimPreview(s: State, me: ThreadId, id: Id)
    requires me !in s.threads && id in s.actions && me in Next(s, ClaimPreview(me, id)).threads
    ensures var pc := Next(s, ClaimPreview(me, id)).threads[me].pc;
            if s.actions[id].kind == Quote then pc.EffectReady? else pc.PreviewReady? && pc.claim == s.nextClaim
    ensures Next(s, ClaimPreview(me, id)).threads[me].action == id
  {
  }

  lemma AfterRecover(s: State, me: ThreadId, id: Id)
    requires me !in s.threads && id in s.actions && me in Next(s, Recover(me, id)).threads
    ensures var pc, a := Next(s, Recover(me, id)).threads[me].pc, s.actions[id];
            if a.phase == Previewing && a.kind == Command then pc.PreviewReady? && Some(pc.claim) == a.claim
            else pc.RecoverReady?
    ensures Next(s, Recover(me, id)).threads[me].action == id
  {
  }

  lemma StartLeavesThreads(s: State, me: ThreadId, id: Id, kind: Kind)
    ensures SameThreadAt(me, s, Next(s, Start(id, kind))) && id in Next(s, Start(id, kind)).actions
  {
  }

  lemma AnswersOrStays(s: State, t: ThreadId, step: Step)
    requires Inv(s) && t in s.threads && Proceeds(step, t) && Asks(step, s.threads[t].pc)
    ensures var n, key := Next(s, step), ExecutionKey(s.threads[t].action);
            t in n.threads
            && (n.threads[t] == s.threads[t] || (n.threads[t].pc.SaveResult? && n.threads[t].pc.result.Some?))
            && (key in s.outcomes ==> n.threads[t].pc.SaveResult? && n.threads[t].pc.result == Some(s.outcomes[key]))
  {
    hide OneSender, WireOk, PmsOk, EffectPosts, ActionsOk, Holds, NextAction;
    assert ThreadOk(s, s.threads[t]);
  }

  lemma MoveMoves(s: State, t: ThreadId, from: Pc, step: Step, to: Pc)
    requires t in s.threads && s.threads[t].pc == from && OfThread(step) && step.t == t && Moves(from, step, to)
    ensures t in Next(s, step).threads && Next(s, step).threads[t].pc == to
  {
    hide NextAction;
  }

  lemma ResumeLeavesThreads(s: State, me: ThreadId, id: Id)
    ensures SameThreadAt(me, s, Next(s, Resume(id)))
  {
  }

  /** The moves that always succeed. */
  predicate Moves(from: Pc, step: Step, to: Pc) {
    match (from, step)
    case (PreviewReady(c, _), SendPreview(_)) => to == PreviewSent(c)
    case (PreviewSent(c), AnswerPreview(_, Previewed)) => to == SavePreview(c)
    case (PreviewSent(c), AnswerPreview(_, Rejected)) => to == RejectPreview(c)
    case (EffectReady(c, k), SendEffect(_)) => to == EffectSent(c, k)
    case (RecoverReady(c, k), QueryUnknown(_)) => to == ResolveReady(c, k)
    case (ResolveReady(c, k), SendResolve(_)) => to == ResolveSent(c, k)
    case (ResolveSent(c, _), ResolveUnknown(_)) => to == SaveResult(c, None)
    case _ => false
  }
}
