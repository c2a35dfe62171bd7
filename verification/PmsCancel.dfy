/** What cancelling an action is worth: it holds until somebody pauses the action, and after that
    the action can be sent like any other. */
module PmsCancel {
  import opened Text
  import opened PmsOps
  import opened PmsHost

  /** Cancelled, or from there handed over to a person. */
  predicate Dropped(p: Phase) { p == Cancelled || p == ManualHandoff || p == ManualCompleted }

  // ---------------------------------------------------------------- as long as nobody pauses it

  lemma ThreadLeavesDropped(s: State, t: ThreadId, step: Step, id: Id)
    requires t in s.threads && id in s.actions && Dropped(s.actions[id].phase)
    ensures id in NextThread(s, t, step).actions && Dropped(NextThread(s, t, step).actions[id].phase)
  {
  }

  lemma ActionLeavesDropped(s: State, other: Id, step: Step, id: Id)
    requires other in s.actions && id in s.actions && Dropped(s.actions[id].phase)
    requires other != id || !step.Pause?
    ensures id in NextAction(s, other, step).actions && Dropped(NextAction(s, other, step).actions[id].phase)
  {
  }

  lemma DroppedStays(s: State, step: Step, id: Id)
    requires id in s.actions && Dropped(s.actions[id].phase) && step != Pause(id)
    ensures id in Next(s, step).actions && Dropped(Next(s, step).actions[id].phase)
  {
    hide NextThread, NextAction, Dropped;
    match step {
      case Start(_, _) =>
      case Commit(_) =>
      case Refuse(_) =>
      case Pause(j) => if j in s.actions { ActionLeavesDropped(s, j, step, id); }
      case Cancel(j) => if j in s.actions { ActionLeavesDropped(s, j, step, id); }
      case Handoff(j) => if j in s.actions { ActionLeavesDropped(s, j, step, id); }
      case FinishManually(j) => if j in s.actions { ActionLeavesDropped(s, j, step, id); }
      case Resume(j) => if j in s.actions { ActionLeavesDropped(s, j, step, id); }
      case ClaimPreview(_, j) => if j in s.actions { ActionLeavesDropped(s, j, step, id); }
      case ClaimExecute(_, j) => if j in s.actions { ActionLeavesDropped(s, j, step, id); }
      case Recover(_, j) => if j in s.actions { ActionLeavesDropped(s, j, step, id); }
      case _ => if step.t in s.threads { ThreadLeavesDropped(s, step.t, step, id); }
    }
  }

  lemma {:induction false} StaysDropped(before: seq<Step>, after: seq<Step>, id: Id)
    requires id in Run(before).actions && Dropped(Run(before).actions[id].phase) && Pause(id) !in after
    ensures id in Run(before + after).actions && Dropped(Run(before + after).actions[id].phase)
  {
    hide Next, Dropped;
    if after == [] {
      assert before + after == before;
    } else {
      var front, last := after[..|after| - 1], after[|after| - 1];
      assert (before + after)[..|before + after| - 1] == before + front;
      StaysDropped(before, front, id);
      DroppedStays(Run(before + front), last, id);
    }
  }

  /** An action that was cancelled is never sent and never committed, whatever any thread, any
      late packet and the other side do, as long as nobody pauses it. */
  lemma CancelledIsNotSent(before: seq<Step>, after: seq<Step>, id: Id)
    requires id in Run(before).actions && Run(before).actions[id].phase == Cancelled && Pause(id) !in after
    ensures var s := Run(before + after);
            id in s.actions && Dropped(s.actions[id].phase)
            && EffectPosts(s.posts, id) == 0 && ExecutionKey(id) !in s.commits
  {
    hide Run, EffectPosts;
    StaysDropped(before, after, id);
    SavedResultsAreTrue(before + after, id);
  }

  // ---------------------------------------------------------------- once somebody pauses it

  /** An action of which nothing is recorded yet, and where thread t stands with it. */
  predicate Stage(s: State, id: Id, t: ThreadId, kind: Kind, phase: Phase, pc: Option<Pc>) {
    && id in s.actions && s.actions[id].kind == kind && s.actions[id].phase == phase
    && ExecutionKey(id) !in s.outcomes
    && (match pc
        case None => t !in s.threads
        case Some(p) =>
          t in s.threads && s.threads[t] == Thread(id, p)
          && (!p.EffectReady? ==> s.actions[id].claim == Some(p.claim)))
  }

  lemma Reopens(s: State, id: Id, t: ThreadId, kind: Kind)
    requires Stage(s, id, t, kind, Cancelled, None)
    ensures var n := RunFrom(s, [Pause(id), Resume(id)]);
            Stage(n, id, t, kind, Draft, None) && n.posts == s.posts
  {
    hide Next;
    TwoSteps(s, Pause(id), Resume(id));
    Pauses(s, id, t, kind);
    Resumes(Next(s, Pause(id)), id, t, kind);
  }

  lemma Pauses(s: State, id: Id, t: ThreadId, kind: Kind)
    requires Stage(s, id, t, kind, Cancelled, None)
    ensures Stage(Next(s, Pause(id)), id, t, kind, Paused, None) && Next(s, Pause(id)).posts == s.posts
  {
    hide NextThread;
  }

  lemma Resumes(s: State, id: Id, t: ThreadId, kind: Kind)
    requires Stage(s, id, t, kind, Paused, None)
    ensures Stage(Next(s, Resume(id)), id, t, kind, Draft, None) && Next(s, Resume(id)).posts == s.posts
  {
    hide NextThread;
  }

  lemma Previews(s: State, id: Id, t: ThreadId)
    requires Stage(s, id, t, Command, Draft, None)
    ensures var n := RunFrom(s, [ClaimPreview(t, id), SendPreview(t), AnswerPreview(t, Previewed), StorePreview(t)]);
            Stage(n, id, t, Command, Awaiting, None) && |n.posts| == |s.posts| + 1
  {
    var c, key := s.nextClaim, PreviewKeyOf(s, id);
    var n1 := Next(s, ClaimPreview(t, id));
    assert Stage(n1, id, t, Command, Previewing, Some(PreviewReady(c, key)));
    var n2 := Next(n1, SendPreview(t));
    assert Stage(n2, id, t, Command, Previewing, Some(PreviewSent(c)));
    var n3 := Next(n2, AnswerPreview(t, Previewed));
    assert Stage(n3, id, t, Command, Previewing, Some(SavePreview(c)));
    hide Next;
    TwoSteps(s, ClaimPreview(t, id), SendPreview(t));
    TwoSteps(n2, AnswerPreview(t, Previewed), StorePreview(t));
    RunOnto(s, [ClaimPreview(t, id), SendPreview(t)], [AnswerPreview(t, Previewed), StorePreview(t)]);
    assert [ClaimPreview(t, id), SendPreview(t)] + [AnswerPreview(t, Previewed), StorePreview(t)]
        == [ClaimPreview(t, id), SendPreview(t), AnswerPreview(t, Previewed), StorePreview(t)];
    StoresPreview(n3, id, t, c);
  }

  lemma StoresPreview(s: State, id: Id, t: ThreadId, claim: nat)
    requires Stage(s, id, t, Command, Previewing, Some(SavePreview(claim)))
    ensures var n := Next(s, StorePreview(t));
            Stage(n, id, t, Command, Awaiting, None) && n.posts == s.posts
  {
  }

  /** With the permission to send, the request goes out and is committed. */
  lemma SendsAndCommits(s: State, id: Id, t: ThreadId, kind: Kind, phase: Phase, claim: nat)
    requires Stage(s, id, t, kind, phase, Some(EffectReady(claim, ExecutionKey(id))))
    ensures var n := RunFrom(s, [SendEffect(t), Commit(|s.posts|)]);
            ExecutionKey(id) in n.commits && |n.posts| == |s.posts| + 1
            && n.posts[|s.posts|] == Effect(id, ExecutionKey(id))
  {
    TwoSteps(s, SendEffect(t), Commit(|s.posts|));
  }

  lemma TwoSteps(s: State, a: Step, b: Step)
    ensures RunFrom(s, [a, b]) == Next(Next(s, a), b)
  {
    hide Next, RunFrom;
    OneStep(s, a);
    OneStep(Next(s, a), b);
    RunOnto(s, [a], [b]);
    assert [a] + [b] == [a, b];
  }

  lemma {:induction false} RunOnto(s: State, a: seq<Step>, b: seq<Step>)
    ensures RunFrom(s, a + b) == RunFrom(RunFrom(s, a), b)
  {
    hide Next;
    if b == [] {
      assert a + b == a;
    } else {
      assert (a + b)[..|a + b| - 1] == a + b[..|b| - 1];
      RunOnto(s, a, b[..|b| - 1]);
    }
  }

  lemma {:induction false} RunIsRunFrom(steps: seq<Step>)
    ensures Run(steps) == RunFrom(START, steps)
  {
    hide Next;
    if steps == [] {
    } else {
      RunIsRunFrom(steps[..|steps| - 1]);
    }
  }

  /** Pause, resume, and then what every action goes through. */
  function Revival(id: Id, t: ThreadId, kind: Kind, posts: nat): seq<Step> {
    [Pause(id), Resume(id)]
    + (if kind == Command then
         [ClaimPreview(t, id), SendPreview(t), AnswerPreview(t, Previewed), StorePreview(t)] + [ClaimExecute(t, id)]
       else [ClaimPreview(t, id)])
    + [SendEffect(t), Commit(if kind == Command then posts + 1 else posts)]
  }

  lemma OneStep(s: State, a: Step)
    ensures RunFrom(s, [a]) == Next(s, a)
  {
    hide Next;
    assert [a][..0] == [];
  }

  /** From the draft to the permission to send. */
  lemma Prepares(s: State, id: Id, t: ThreadId, kind: Kind)
    requires Stage(s, id, t, kind, Draft, None)
    ensures var way := if kind == Command
                       then [ClaimPreview(t, id), SendPreview(t), AnswerPreview(t, Previewed), StorePreview(t)]
                            + [ClaimExecute(t, id)]
                       else [ClaimPreview(t, id)];
            var n := RunFrom(s, way);
            |n.posts| == |s.posts| + (if kind == Command then 1 else 0)
            && exists phase, claim :: Stage(n, id, t, kind, phase, Some(EffectReady(claim, ExecutionKey(id))))
  {
    if kind == Command {
      hide Next, RunFrom;
      Previews(s, id, t);
      var m := RunFrom(s, [ClaimPreview(t, id), SendPreview(t), AnswerPreview(t, Previewed), StorePreview(t)]);
      RunOnto(s, [ClaimPreview(t, id), SendPreview(t), AnswerPreview(t, Previewed), StorePreview(t)],
              [ClaimExecute(t, id)]);
      OneStep(m, ClaimExecute(t, id));
      Permits(m, id, t);
    } else {
      OneStep(s, ClaimPreview(t, id));
      hide RunFrom;
      var n := Next(s, ClaimPreview(t, id));
      assert Stage(n, id, t, kind, Previewing, Some(EffectReady(s.nextClaim, ExecutionKey(id))));
    }
  }

  lemma Permits(s: State, id: Id, t: ThreadId)
    requires Stage(s, id, t, Command, Awaiting, None)
    ensures var n := Next(s, ClaimExecute(t, id));
            n.posts == s.posts
            && Stage(n, id, t, Command, Executing, Some(EffectReady(s.nextClaim, ExecutionKey(id))))
  {
  }

  /** In every reachable state, a cancelled action can still be sent and committed by any thread
      that is free: it only has to be paused first. */
  lemma PausedIsSent(before: seq<Step>, id: Id, t: ThreadId)
    requires id in Run(before).actions && Run(before).actions[id].phase == Cancelled && t !in Run(before).threads
    ensures var s := Run(before);
            var way := Revival(id, t, s.actions[id].kind, |s.posts|);
            way[0] == Pause(id) && ExecutionKey(id) in Run(before + way).commits
  {
    hide Next, Run, RunFrom, Stage;
    var s := Run(before);
    var kind := s.actions[id].kind;
    NothingRecorded(before, id, t);
    var reopen := [Pause(id), Resume(id)];
    Reopens(s, id, t, kind);
    var n := RunFrom(s, reopen);
    Prepares(n, id, t, kind);
    var prepare := if kind == Command
                   then [ClaimPreview(t, id), SendPreview(t), AnswerPreview(t, Previewed), StorePreview(t)]
                        + [ClaimExecute(t, id)]
                   else [ClaimPreview(t, id)];
    var m := RunFrom(n, prepare);
    var phase, claim :| Stage(m, id, t, kind, phase, Some(EffectReady(claim, ExecutionKey(id))));
    SendsAndCommits(m, id, t, kind, phase, claim);
    var send := [SendEffect(t), Commit(|m.posts|)];
    RunOnto(s, reopen, prepare);
    RunOnto(s, reopen + prepare, send);
    RunIsRunFrom(before);
    RunIsRunFrom(before + (reopen + prepare + send));
    RunOnto(START, before, reopen + prepare + send);
  }

  lemma NothingRecorded(before: seq<Step>, id: Id, t: ThreadId)
    requires id in Run(before).actions && Run(before).actions[id].phase == Cancelled && t !in Run(before).threads
    ensures Stage(Run(before), id, t, Run(before).actions[id].kind, Cancelled, None)
  {
    hide Run, EffectPosts, ThreadOk;
    var s := Run(before);
    RunKeeps(before);
    NoOutcomeYet(s, id);
  }

  lemma NoOutcomeYet(s: State, id: Id)
    requires Inv(s) && id in s.actions && !Late(s.actions[id])
    ensures ExecutionKey(id) !in s.outcomes
  {
    hide Late, EffectPosts, ThreadOk;
  }

  /** Whether a cancelled action can ever be sent depends on one call only. */
  lemma CancelHoldsUntilPause(before: seq<Step>, id: Id, t: ThreadId)
    requires id in Run(before).actions && Run(before).actions[id].phase == Cancelled && t !in Run(before).threads
    ensures forall after :: Pause(id) !in after ==> ExecutionKey(id) !in Run(before + after).commits
    ensures exists after :: Pause(id) in after && ExecutionKey(id) in Run(before + after).commits
  {
    hide Run, Revival;
    forall after | Pause(id) !in after
      ensures ExecutionKey(id) !in Run(before + after).commits
    {
      CancelledIsNotSent(before, after, id);
    }
    PausedIsSent(before, id, t);
    var way := Revival(id, t, Run(before).actions[id].kind, |Run(before).posts|);
    assert way[0] in way;
  }

  /** A command that is started, cancelled, paused, resumed, previewed and executed is committed. */
  lemma CancelledIsCommitted()
    ensures var steps := [Start(0, Command), Cancel(0)] + Revival(0, 0, Command, 0);
            steps == [Start(0, Command), Cancel(0), Pause(0), Resume(0), ClaimPreview(0, 0), SendPreview(0),
                      AnswerPreview(0, Previewed), StorePreview(0), ClaimExecute(0, 0), SendEffect(0), Commit(1)]
            && ExecutionKey(0) in Run(steps).commits
  {
    var before := [Start(0, Command), Cancel(0)];
    RunIsRunFrom(before);
    TwoSteps(START, Start(0, Command), Cancel(0));
    hide Run, RunFrom;
    PausedIsSent(before, 0, 0);
  }
}
