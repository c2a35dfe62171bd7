/** What a preview is worth: a rejected one, or one whose action a person took over, is never
    executed, and every preview goes out under the key of the version it was asked for. */
module PmsPreview {
  import opened Text
  import opened PmsOps
  import opened PmsHost
  import opened PmsCancel

  // ---------------------------------------------------------------- phases without return

  /** Rejected, or in the hands of a person for good. */
  predicate Closed(p: Phase) { p == PreviewRejected || p == ManualHandoff || p == ManualCompleted }

  /** What becomes of a closed action. */
  predicate ClosedNext(p: Phase, q: Phase) {
    Closed(p) && (q == p || (p == ManualHandoff && q == ManualCompleted))
  }

  lemma ThreadLeavesClosed(s: State, t: ThreadId, step: Step, id: Id)
    requires t in s.threads && id in s.actions && Closed(s.actions[id].phase)
    ensures id in NextThread(s, t, step).actions
    ensures ClosedNext(s.actions[id].phase, NextThread(s, t, step).actions[id].phase)
  {
  }

  lemma ActionLeavesClosed(s: State, other: Id, step: Step, id: Id)
    requires other in s.actions && id in s.actions && Closed(s.actions[id].phase)
    ensures id in NextAction(s, other, step).actions
    ensures ClosedNext(s.actions[id].phase, NextAction(s, other, step).actions[id].phase)
  {
  }

  lemma ClosedStays(s: State, step: Step, id: Id)
    requires id in s.actions && Closed(s.actions[id].phase)
    ensures id in Next(s, step).actions && ClosedNext(s.actions[id].phase, Next(s, step).actions[id].phase)
  {
    hide NextThread, NextAction;
    match step {
      case Start(_, _) =>
      case Commit(_) =>
      case Refuse(_) =>
      case Pause(j) => if j in s.actions { ActionLeavesClosed(s, j, step, id); }
      case Cancel(j) => if j in s.actions { ActionLeavesClosed(s, j, step, id); }
      case Handoff(j) => if j in s.actions { ActionLeavesClosed(s, j, step, id); }
      case FinishManually(j) => if j in s.actions { ActionLeavesClosed(s, j, step, id); }
      case Resume(j) => if j in s.actions { ActionLeavesClosed(s, j, step, id); }
      case ClaimPreview(_, j) => if j in s.actions { ActionLeavesClosed(s, j, step, id); }
      case ClaimExecute(_, j) => if j in s.actions { ActionLeavesClosed(s, j, step, id); }
      case Recover(_, j) => if j in s.actions { ActionLeavesClosed(s, j, step, id); }
      case _ => if step.t in s.threads { ThreadLeavesClosed(s, step.t, step, id); }
    }
  }

  lemma ClosedIsNotLate(s: State, id: Id)
    requires Inv(s) && id in s.actions && Closed(s.actions[id].phase)
    ensures EffectPosts(s.posts, id) == 0 && ExecutionKey(id) !in s.commits
  {
    hide EffectPosts, ThreadOk;
    assert ActionOk(s, id);
    NoOutcomeYet(s, id);
  }

  lemma {:induction false} ClosedForGood(s: State, after: seq<Step>, id: Id)
    requires Inv(s) && id in s.actions && Closed(s.actions[id].phase)
    ensures var n := RunFrom(s, after);
            Inv(n) && id in n.actions && ClosedNext(s.actions[id].phase, n.actions[id].phase)
            && EffectPosts(n.posts, id) == 0 && ExecutionKey(id) !in n.commits
  {
    hide Next, Inv, EffectPosts;
    if after == [] {
      ClosedIsNotLate(s, id);
    } else {
      var front, last := after[..|after| - 1], after[|after| - 1];
      ClosedForGood(s, front, id);
      ClosedStays(RunFrom(s, front), last, id);
      NextKeeps(RunFrom(s, front), last);
      ClosedIsNotLate(RunFrom(s, after), id);
    }
  }

  /** A preview that was answered as rejected, and whose claim still stands when that is stored, is
      final: the effect request of its action is never sent, in no continuation. */
  lemma RejectedIsNotSent(before: seq<Step>, t: ThreadId, between: seq<Step>, after: seq<Step>)
    requires t in Run(before).threads && Run(before).threads[t].pc.PreviewSent? && Leaves(t, between)
    requires var th := Run(before).threads[t];
             Waits(RunFrom(Next(Run(before), AnswerPreview(t, Rejected)), between), th.action, th.pc.claim)
    ensures var id := Run(before).threads[t].action;
            var m := RunFrom(Next(Run(before), AnswerPreview(t, Rejected)), between);
            var n := RunFrom(Next(m, StorePreview(t)), after);
            id in n.actions && n.actions[id].phase == PreviewRejected
            && EffectPosts(n.posts, id) == 0 && ExecutionKey(id) !in n.commits
  {
    hide Next, Inv, EffectPosts, Run;
    var s := Run(before);
    var th := s.threads[t];
    RunKeeps(before);
    NextKeeps(s, AnswerPreview(t, Rejected));
    HearsRejection(s, t);
    OthersKeep(Next(s, AnswerPreview(t, Rejected)), between, t);
    var m := RunFrom(Next(s, AnswerPreview(t, Rejected)), between);
    AnswerIsStored(m, t, th.pc.claim, Rejected);
    NextKeeps(m, StorePreview(t));
    ClosedForGood(Next(m, StorePreview(t)), after, th.action);
  }

  lemma HearsRejection(s: State, t: ThreadId)
    requires t in s.threads && s.threads[t].pc.PreviewSent?
    ensures var n := Next(s, AnswerPreview(t, Rejected));
            t in n.threads && n.threads[t] == Thread(s.threads[t].action, RejectPreview(s.threads[t].pc.claim))
  {
  }

  /** An answered preview whose claim still stands when it is stored waits for a person. */
  lemma PreviewedWaits(before: seq<Step>, t: ThreadId, between: seq<Step>)
    requires t in Run(before).threads && Run(before).threads[t].pc.PreviewSent? && Leaves(t, between)
    requires var th := Run(before).threads[t];
             Waits(RunFrom(Next(Run(before), AnswerPreview(t, Previewed)), between), th.action, th.pc.claim)
    ensures var id := Run(before).threads[t].action;
            var n := Next(RunFrom(Next(Run(before), AnswerPreview(t, Previewed)), between), StorePreview(t));
            id in n.actions && n.actions[id].phase == Awaiting && EffectPosts(n.posts, id) == 0
  {
    hide Next, Inv, EffectPosts, Run;
    var s := Run(before);
    var th := s.threads[t];
    RunKeeps(before);
    NextKeeps(s, AnswerPreview(t, Previewed));
    HearsPreview(s, t);
    OthersKeep(Next(s, AnswerPreview(t, Previewed)), between, t);
    var m := RunFrom(Next(s, AnswerPreview(t, Previewed)), between);
    AnswerIsStored(m, t, th.pc.claim, Previewed);
    NextKeeps(m, StorePreview(t));
    EarlyIsNotSent(Next(m, StorePreview(t)), th.action);
  }

  lemma HearsPreview(s: State, t: ThreadId)
    requires t in s.threads && s.threads[t].pc.PreviewSent?
    ensures var n := Next(s, AnswerPreview(t, Previewed));
            t in n.threads && n.threads[t] == Thread(s.threads[t].action, SavePreview(s.threads[t].pc.claim))
  {
  }

  lemma EarlyIsNotSent(s: State, id: Id)
    requires Inv(s) && id in s.actions && s.actions[id].phase == Awaiting
    ensures EffectPosts(s.posts, id) == 0
  {
    hide EffectPosts, ThreadsOk, OneSender, WireOk, PmsOk;
    assert ActionOk(s, id);
  }

  /** An action handed over to a person stays there, and nothing is ever sent for it. It can be handed
      over as a draft, while it waits, and when it is paused or cancelled. */
  lemma HandedOverIsNotSent(before: seq<Step>, id: Id, after: seq<Step>)
    requires id in Run(before).actions && Run(before).actions[id].phase in {Draft, Awaiting, Paused, Cancelled}
    ensures var n := RunFrom(Next(Run(before), Handoff(id)), after);
            id in n.actions && n.actions[id].phase in {ManualHandoff, ManualCompleted}
            && EffectPosts(n.posts, id) == 0 && ExecutionKey(id) !in n.commits
    ensures var n := Next(Next(Run(before), Handoff(id)), FinishManually(id));
            id in n.actions && n.actions[id].phase == ManualCompleted
  {
    hide Inv, EffectPosts, Run, Next;
    RunKeeps(before);
    HandsOver(Run(before), id);
    NextKeeps(Run(before), Handoff(id));
    ClosedForGood(Next(Run(before), Handoff(id)), after, id);
  }

  lemma HandsOver(s: State, id: Id)
    requires id in s.actions && s.actions[id].phase in {Draft, Awaiting, Paused, Cancelled}
    ensures var n := Next(s, Handoff(id));
            id in n.actions && n.actions[id].phase == ManualHandoff
            && id in Next(n, FinishManually(id)).actions
            && Next(n, FinishManually(id)).actions[id].phase == ManualCompleted
  {
    hide NextThread;
  }

  // ---------------------------------------------------------------- preview keys

  /** A preview key belongs to a version that its action has had. */
  predicate KeyFits(s: State, id: Id, key: Key) {
    id in s.actions && key.PreviewKey? && key.action == id && 1 <= key.version <= s.actions[id].version
  }

  /** A thread that is to ask for a preview has a key of its action; if its claim stands, it is that
      of the current version. Claims are handed out once. */
  predicate PreviewThreadOk(s: State, th: Thread) {
    && th.pc.claim < s.nextClaim
    && (th.pc.PreviewReady? ==>
          KeyFits(s, th.action, th.pc.key)
          && (Waits(s, th.action, th.pc.claim) ==> th.pc.key == PreviewKey(th.action, s.actions[th.action].version)))
  }

  predicate VersionedOk(s: State, id: Id)
    requires id in s.actions
  {
    s.actions[id].version >= 1 && (s.actions[id].claim.Some? ==> s.actions[id].claim.value < s.nextClaim)
  }

  ghost predicate KeysOk(s: State) {
    && (forall id :: id in s.actions ==> VersionedOk(s, id))
    && (forall t :: t in s.threads ==> PreviewThreadOk(s, s.threads[t]))
    && forall i :: 0 <= i < |s.posts| && s.posts[i].PreviewPost? ==> KeyFits(s, s.posts[i].action, s.posts[i].key)
  }

  /** Versions and claims only grow, and a preview that is waited for is that of its version. */
  ghost predicate VersionsGrow(s: State, n: State) {
    s.nextClaim <= n.nextClaim && forall id :: id in s.actions ==> VersionGrows(s, n, id)
  }

  ghost predicate VersionGrows(s: State, n: State, id: Id)
    requires id in s.actions
  {
    id in n.actions && s.actions[id].version <= n.actions[id].version
    && forall c: nat :: c < s.nextClaim && Waits(n, id, c) ==>
         Waits(s, id, c) && n.actions[id].version == s.actions[id].version
  }

  lemma KeyStays(s: State, n: State, th: Thread)
    requires PreviewThreadOk(s, th) && VersionsGrow(s, n)
    ensures PreviewThreadOk(n, th)
  {
    hide Waits;
    if th.action in s.actions { assert VersionGrows(s, n, th.action); }
  }

  lemma ThreadVersions(s: State, t: ThreadId, step: Step)
    requires t in s.threads
    ensures VersionsGrow(s, NextThread(s, t, step))
  {
  }

  lemma MovedOk(s: State, t: ThreadId, step: Step)
    requires t in s.threads && PreviewThreadOk(s, s.threads[t])
    ensures var n := NextThread(s, t, step); t in n.threads ==> PreviewThreadOk(n, n.threads[t])
  {
  }

  lemma OthersStand(s: State, t: ThreadId, step: Step)
    requires t in s.threads
    ensures var n := NextThread(s, t, step);
            (forall u :: u in n.threads && u != t ==> u in s.threads && n.threads[u] == s.threads[u])
            && (n.posts == s.posts
                || (s.threads[t].pc.PreviewReady?
                    && n.posts == s.posts + [PreviewPost(s.threads[t].action, s.threads[t].pc.key)])
                || (|n.posts| == |s.posts| + 1 && n.posts[..|s.posts|] == s.posts && !n.posts[|s.posts|].PreviewPost?))
  {
  }

  lemma VersionsStand(s: State, t: ThreadId, step: Step)
    requires t in s.threads && forall id :: id in s.actions ==> VersionedOk(s, id)
    ensures var n := NextThread(s, t, step); forall id :: id in n.actions ==> id in s.actions && VersionedOk(n, id)
  {
  }

  lemma ThreadKeepsKeys(s: State, t: ThreadId, step: Step)
    requires KeysOk(s) && t in s.threads
    ensures KeysOk(NextThread(s, t, step))
  {
    var n := NextThread(s, t, step);
    assert PreviewThreadOk(s, s.threads[t]);
    MovedOk(s, t, step);
    OthersStand(s, t, step);
    VersionsStand(s, t, step);
    ThreadVersions(s, t, step);
    hide NextThread;
    forall u | u in n.threads
      ensures PreviewThreadOk(n, n.threads[u])
    {
      if u != t {
        assert PreviewThreadOk(s, s.threads[u]);
        KeyStays(s, n, s.threads[u]);
      }
    }
    PostsKept(s, n);
  }

  lemma PostsKept(s: State, n: State)
    requires KeysOk(s) && VersionsGrow(s, n) && |s.posts| <= |n.posts| && n.posts[..|s.posts|] == s.posts
    requires forall i :: |s.posts| <= i < |n.posts| && n.posts[i].PreviewPost? ==>
               KeyFits(s, n.posts[i].action, n.posts[i].key)
    ensures forall i :: 0 <= i < |n.posts| && n.posts[i].PreviewPost? ==> KeyFits(n, n.posts[i].action, n.posts[i].key)
  {
    hide Waits;
    forall i | 0 <= i < |n.posts| && n.posts[i].PreviewPost?
      ensures KeyFits(n, n.posts[i].action, n.posts[i].key)
    {
      if i < |s.posts| {
        assert n.posts[i] == n.posts[..|s.posts|][i];
        assert KeyFits(s, s.posts[i].action, s.posts[i].key);
      }
      assert VersionGrows(s, n, n.posts[i].action);
    }
  }

  lemma ActionVersions(s: State, id: Id, step: Step)
    requires KeysOk(s) && id in s.actions
    ensures VersionsGrow(s, NextAction(s, id, step))
  {
    assert VersionedOk(s, id);
  }


  /** The thread that a step may start, and the rest of the threads. */
  lemma StartedOk(s: State, id: Id, step: Step)
    requires id in s.actions && VersionedOk(s, id)
    ensures var n := NextAction(s, id, step);
            n.posts == s.posts
            && forall u :: u in n.threads ==>
                 (u in s.threads && n.threads[u] == s.threads[u]) || PreviewThreadOk(n, n.threads[u])
  {
  }

  lemma ActionsStand(s: State, id: Id, step: Step)
    requires id in s.actions && forall j :: j in s.actions ==> VersionedOk(s, j)
    ensures var n := NextAction(s, id, step); forall j :: j in n.actions ==> VersionedOk(n, j)
  {
    assert VersionedOk(s, id);
  }

  lemma ActionKeepsKeys(s: State, id: Id, step: Step)
    requires KeysOk(s) && id in s.actions
    ensures KeysOk(NextAction(s, id, step))
  {
    var n := NextAction(s, id, step);
    assert VersionedOk(s, id);
    StartedOk(s, id, step);
    ActionsStand(s, id, step);
    ActionVersions(s, id, step);
    hide NextAction;
    forall u | u in n.threads
      ensures PreviewThreadOk(n, n.threads[u])
    {
      if u in s.threads && n.threads[u] == s.threads[u] {
        assert PreviewThreadOk(s, s.threads[u]);
        KeyStays(s, n, s.threads[u]);
      }
    }
    PostsKept(s, n);
  }

  lemma OtherKeepsKeys(s: State, n: State)
    requires KeysOk(s) && VersionsGrow(s, n) && n.threads == s.threads && n.posts == s.posts
    requires forall id :: id in n.actions ==> VersionedOk(n, id)
    ensures KeysOk(n)
  {
    forall u | u in n.threads
      ensures PreviewThreadOk(n, n.threads[u])
    {
      assert PreviewThreadOk(s, s.threads[u]);
      KeyStays(s, n, s.threads[u]);
    }
    PostsKept(s, n);
  }

  lemma NextKeepsKeys(s: State, step: Step)
    requires KeysOk(s)
    ensures KeysOk(Next(s, step))
  {
    hide NextThread, NextAction, KeysOk;
    match step {
      case Start(id, kind) => StartKeepsKeys(s, id, kind);
      case Commit(i) => ServedKeepsKeys(s, i, true);
      case Refuse(i) => ServedKeepsKeys(s, i, false);
      case Pause(id) => if id in s.actions { ActionKeepsKeys(s, id, step); }
      case Cancel(id) => if id in s.actions { ActionKeepsKeys(s, id, step); }
      case Handoff(id) => if id in s.actions { ActionKeepsKeys(s, id, step); }
      case FinishManually(id) => if id in s.actions { ActionKeepsKeys(s, id, step); }
      case Resume(id) => if id in s.actions { ActionKeepsKeys(s, id, step); }
      case ClaimPreview(_, id) => if id in s.actions { ActionKeepsKeys(s, id, step); }
      case ClaimExecute(_, id) => if id in s.actions { ActionKeepsKeys(s, id, step); }
      case Recover(_, id) => if id in s.actions { ActionKeepsKeys(s, id, step); }
      case _ => if step.t in s.threads { ThreadKeepsKeys(s, step.t, step); }
    }
  }

  lemma ServedKeepsKeys(s: State, i: nat, commit: bool)
    requires KeysOk(s)
    ensures KeysOk(NextServed(s, i, commit))
  {
    OtherKeepsKeys(s, NextServed(s, i, commit));
  }

  lemma StartKeepsKeys(s: State, id: Id, kind: Kind)
    requires KeysOk(s)
    ensures KeysOk(Next(s, Start(id, kind)))
  {
    var n := Next(s, Start(id, kind));
    assert forall j :: j in s.actions ==> VersionedOk(s, j);
    OtherKeepsKeys(s, n);
  }

  lemma {:induction false} RunKeepsKeys(steps: seq<Step>)
    ensures KeysOk(Run(steps))
  {
    hide Next, KeysOk;
    if steps == [] {
      assert KeysOk(START) by { NoKeysYet(); }
    } else {
      RunKeepsKeys(steps[..|steps| - 1]);
      NextKeepsKeys(Run(steps[..|steps| - 1]), steps[|steps| - 1]);
    }
  }

  lemma NoKeysYet()
    ensures KeysOk(START)
  {
  }

  /** In every run: a preview is asked for under the key of a version its action has had; while the
      claim of the asking thread stands, under that of the current one, also when it is a recovery.
      After a resume it goes out under a key that nothing was asked under before. */
  lemma PreviewKeys(steps: seq<Step>)
    ensures var s := Run(steps);
            (forall i :: 0 <= i < |s.posts| && s.posts[i].PreviewPost? ==>
               KeyFits(s, s.posts[i].action, s.posts[i].key))
            && (forall t :: t in s.threads && s.threads[t].pc.PreviewReady?
                            && Waits(s, s.threads[t].action, s.threads[t].pc.claim) ==>
                  s.threads[t].pc.key == PreviewKey(s.threads[t].action, s.actions[s.threads[t].action].version))
  {
    hide Run, Waits;
    RunKeepsKeys(steps);
    var s := Run(steps);
    forall t | t in s.threads && s.threads[t].pc.PreviewReady?
      ensures PreviewThreadOk(s, s.threads[t])
    {
    }
  }

  lemma ResumeIsFresh(steps: seq<Step>, id: Id)
    requires id in Run(steps).actions && Run(steps).actions[id].phase == Paused
    ensures var s, n := Run(steps), Next(Run(steps), Resume(id));
            n.actions[id].phase == Draft && n.posts == s.posts
            && forall i :: 0 <= i < |s.posts| && s.posts[i].PreviewPost? ==>
                 s.posts[i].key != PreviewKey(id, n.actions[id].version)
  {
    hide Run;
    PreviewKeys(steps);
  }
}
