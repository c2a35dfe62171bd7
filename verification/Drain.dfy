/** Draining a gateway before a restart: a polling loop with a marker that is cleaned up on
    every way out. The trace of observations is arbitrary and may end at any point. */
module Drain {
  import opened Text

  /** A drain request: a dictionary with a principal, or anything else that was read. */
  datatype Marker = Request(principal: Option<string>, body: string) | Other(text: string)

  /** One runtime status record; a part is None when it is missing or has the wrong type. */
  datatype Status = Status(pid: Option<int>, state: string, active: Option<int>, updated: Option<string>)

  /** One turn of the loop: the time at the loop test, the marker found, the status, and the time
      when the status is judged; or an exception or signal during the turn. */
  datatype Turn = Turn(now: real, marker: Option<Marker>, status: Option<Status>, later: real) | Interrupt

  /** Writing the marker returns it, or raises before or after something was written. */
  datatype Write = Written(marker: Marker) | WriteRaises(left: Option<Marker>)

  /** Clearing the marker succeeds, reports failure, or raises. */
  datatype Clear = Cleared | Refused | ClearRaises

  datatype Env = Env(first: Option<Marker>, principal: string, write: Write, start: real, timeout: real, pid: int,
                     turns: seq<Turn>, restartOk: bool, atEnd: Option<Option<Marker>>, clear: Clear)

  datatype Outcome =
    | Restarted
    | ExistingDrain | WriteFailed | DrainChanged | IdentityChanged | Timeout | Interrupted | RestartFailed
    | CleanupFailed

  // ---------------------------------------------------------------- one turn

  predicate IsReady(s: Status) { s.state == "draining" && s.active == Some(0) && s.updated.Some? }

  /** The loop goes through this turn without leaving. */
  predicate Passes(env: Env, marker: Marker, t: Turn) {
    t.Turn? && t.now < env.start + env.timeout && t.marker == Some(marker)
    && (t.status.Some? ==> t.status.value.pid == Some(env.pid))
  }

  /** Our own marker, the expected process, draining, and no active agent. */
  predicate Quiet(env: Env, marker: Marker, t: Turn) {
    Passes(env, marker, t) && t.status.Some? && IsReady(t.status.value)
  }

  /** The turns from i to j are quiet, and the turn before them is not. */
  ghost predicate QuietRun(env: Env, marker: Marker, i: nat, j: nat) {
    i <= j < |env.turns| && (forall k :: i <= k <= j ==> Quiet(env, marker, env.turns[k]))
    && (i > 0 ==> !Quiet(env, marker, env.turns[i - 1]))
  }

  /** A quiet run up to j whose ends are two time units apart and show different updates. */
  ghost predicate Fires(env: Env, marker: Marker, j: nat) {
    exists i: nat :: QuietRun(env, marker, i, j) && FarApart(env.turns[i], env.turns[j])
  }

  predicate FarApart(a: Turn, b: Turn) {
    a.Turn? && b.Turn? && a.status.Some? && b.status.Some?
    && b.later - a.later >= 2.0 && b.status.value.updated != a.status.value.updated
  }

  /** The loop reaches turn j and calls the restart there. */
  ghost predicate RestartsAt(env: Env, marker: Marker, j: nat) {
    j < |env.turns| && Fires(env, marker, j)
    && forall k :: 0 <= k < j ==> Passes(env, marker, env.turns[k]) && !Fires(env, marker, k)
  }

  /** The loop gets to turn j, or to the end of the trace, and ends there in this way. */
  ghost predicate EndsAt(env: Env, marker: Marker, j: nat, r: Outcome) {
    && j <= |env.turns| && (forall k :: 0 <= k < j ==> Passes(env, marker, env.turns[k]) && !Fires(env, marker, k))
    && if j == |env.turns| then r == Interrupted
       else LeavesBy(env, marker, env.turns[j], r)
            || (Passes(env, marker, env.turns[j]) && Fires(env, marker, j)
                && r == if env.restartOk then Restarted else RestartFailed)
  }

  /** The turn leaves the loop without a restart. */
  predicate LeavesBy(env: Env, marker: Marker, t: Turn, r: Outcome) {
    if t.Interrupt? then r == Interrupted
    else if t.now >= env.start + env.timeout then r == Timeout
    else if t.marker != Some(marker) then r == DrainChanged
    else r == IdentityChanged && t.status.Some? && t.status.value.pid != Some(env.pid)
  }

  /** There is one way out only. */
  lemma EndsOnce(env: Env, marker: Marker, i: nat, j: nat, q: Outcome, r: Outcome)
    requires EndsAt(env, marker, i, q) && EndsAt(env, marker, j, r)
    ensures i == j && q == r
  {
    hide Fires;
  }

  /** Ours: exactly the marker written, or, when writing raised, any request of our principal. */
  predicate Owned(env: Env, marker: Option<Marker>, current: Option<Marker>) {
    match marker
    case Some(m) => current == Some(m)
    case None => current.Some? && current.value.Request? && current.value.principal == Some(env.principal)
  }

  lemma RunStart(env: Env, marker: Marker, i: nat, k: nat, j: nat)
    requires QuietRun(env, marker, i, j) && QuietRun(env, marker, k, j)
    ensures i == k
  {
  }

  // ---------------------------------------------------------------- the program

  class Gateway {
    var marker: Option<Marker>
    var restarts: nat

    constructor (marker: Option<Marker>)
      ensures this.marker == marker && restarts == 0
    {
      this.marker := marker;
      this.restarts := 0;
    }

    /** The loop. It calls the restart at the first turn that ends a long enough quiet run. */
    method Poll(env: Env, own: Marker) returns (r: Outcome)
      modifies this
      ensures r != CleanupFailed && r != ExistingDrain && r != WriteFailed
      ensures restarts == old(restarts) + if r == Restarted || r == RestartFailed then 1 else 0
      ensures (r == Restarted || r == RestartFailed) <==> exists j: nat :: RestartsAt(env, own, j)
      ensures exists j: nat :: EndsAt(env, own, j, r)
    {
      hide Fires, RestartsAt, EndsAt;
      var zeroSince: Option<(real, string)> := None;
      ghost var since: nat := 0;
      var n := 0;
      while n < |env.turns|
        invariant 0 <= n <= |env.turns| && restarts == old(restarts)
        invariant forall k :: 0 <= k < n ==> Passes(env, own, env.turns[k]) && !Fires(env, own, k)
        invariant zeroSince.None? && n > 0 ==> !Quiet(env, own, env.turns[n - 1])
        invariant zeroSince.Some? ==>
                    n > 0 && QuietRun(env, own, since, n - 1)
                    && zeroSince.value == (env.turns[since].later, env.turns[since].status.value.updated.value)
      {
        ghost var before := n;
        var t := env.turns[n];
        if t.Interrupt? {
          LeavesAt(env, own, n, Interrupted);
          return Interrupted;
        }
        if t.now >= env.start + env.timeout {
          LeavesAt(env, own, n, Timeout);
          return Timeout;
        }
        marker := t.marker;
        if t.marker != Some(own) {
          LeavesAt(env, own, n, DrainChanged);
          return DrainChanged;
        }
        if t.status.None? {
          NotQuiet(env, own, n);
          zeroSince := None;
        } else {
          if t.status.value.pid != Some(env.pid) {
            LeavesAt(env, own, n, IdentityChanged);
            return IdentityChanged;
          }
          if IsReady(t.status.value) {
            var updated := t.status.value.updated.value;
            ghost var start := if zeroSince.Some? then since else n;
            RunGrows(env, own, start, n);
            if zeroSince.Some? && t.later - zeroSince.value.0 >= 2.0 && updated != zeroSince.value.1 {
              FiresHere(env, own, start, n);
              restarts := restarts + 1;
              return if env.restartOk then Restarted else RestartFailed;
            }
            DoesNotFire(env, own, start, n);
            if zeroSince.None? {
              zeroSince := Some((t.later, updated));
              since := n;
            }
          } else {
            NotQuiet(env, own, n);
            zeroSince := None;
          }
        }
        n := n + 1;
      }
      NeverRestarts(env, own);
      r := Interrupted;
    }

    /** `drain_and_restart`: the restart happens at most once; whatever happened before, our marker
        is gone afterwards unless the cleanup itself failed, and nobody else's was touched. */
    method DrainAndRestart(env: Env) returns (r: Outcome)
      modifies this
      ensures restarts <= old(restarts) + 1
      ensures restarts == old(restarts) + 1 <==>
                env.first.None? && env.write.Written? && exists j: nat :: RestartsAt(env, env.write.marker, j)
      ensures r == Restarted ==> restarts == old(restarts) + 1
      ensures env.first.None? && r != CleanupFailed ==>
                if env.write.Written? then exists j: nat :: EndsAt(env, env.write.marker, j, r) else r == WriteFailed
      ensures r == CleanupFailed <==>
                env.first.None?
                && (env.atEnd.None?
                    || (Owned(env, if env.write.Written? then Some(env.write.marker) else None, env.atEnd.value)
                        && env.clear != Cleared))
      ensures env.first.Some? ==> r == ExistingDrain && marker == env.first
      ensures env.first.None? && r != CleanupFailed ==>
                var own := if env.write.Written? then Some(env.write.marker) else None;
                env.atEnd.Some? && !Owned(env, own, marker)
                && marker == if Owned(env, own, env.atEnd.value) then None else env.atEnd.value
      ensures env.first.None? && env.atEnd.Some?
                && !Owned(env, if env.write.Written? then Some(env.write.marker) else None, env.atEnd.value) ==>
                marker == env.atEnd.value
    {
      hide RestartsAt, EndsAt;
      marker := env.first;
      if env.first.Some? { return ExistingDrain; }
      var own: Option<Marker> := None;
      match env.write {
        case Written(m) =>
          own := Some(m);
          marker := own;
          r := Poll(env, m);
        case WriteRaises(left) =>
          marker := left;
          r := WriteFailed;
      }
      // finally
      if env.atEnd.None? { return CleanupFailed; }
      marker := env.atEnd.value;
      if Owned(env, own, marker) {
        if env.clear == Cleared { marker := None; } else { return CleanupFailed; }
      }
    }
  }

  // ---------------------------------------------------------------- lemmas for the loop

  /** A turn that leaves the loop stops every later restart. */
  lemma LeavesAt(env: Env, own: Marker, n: nat, r: Outcome)
    requires n < |env.turns| && LeavesBy(env, own, env.turns[n], r)
    requires forall k :: 0 <= k < n ==> Passes(env, own, env.turns[k]) && !Fires(env, own, k)
    ensures !exists j: nat :: RestartsAt(env, own, j)
    ensures EndsAt(env, own, n, r)
  {
    hide Fires;
    assert !Fires(env, own, n) by { NotFiring(env, own, n); }
    forall j: nat
      ensures !RestartsAt(env, own, j)
    {
    }
  }

  lemma NotFiring(env: Env, own: Marker, n: nat)
    requires n < |env.turns| && !Passes(env, own, env.turns[n])
    ensures !Fires(env, own, n)
  {
  }

  lemma NeverRestarts(env: Env, own: Marker)
    requires forall k :: 0 <= k < |env.turns| ==> Passes(env, own, env.turns[k]) && !Fires(env, own, k)
    ensures !exists j: nat :: RestartsAt(env, own, j)
    ensures EndsAt(env, own, |env.turns|, Interrupted)
  {
    hide Fires;
  }

  lemma NotQuiet(env: Env, own: Marker, n: nat)
    requires n < |env.turns| && Passes(env, own, env.turns[n])
    requires env.turns[n].status.None? || !IsReady(env.turns[n].status.value)
    ensures !Quiet(env, own, env.turns[n]) && !Fires(env, own, n)
  {
  }

  lemma RunGrows(env: Env, own: Marker, start: nat, n: nat)
    requires start <= n < |env.turns| && Quiet(env, own, env.turns[n])
    requires if start == n then n > 0 ==> !Quiet(env, own, env.turns[n - 1]) else QuietRun(env, own, start, n - 1)
    ensures QuietRun(env, own, start, n)
  {
  }

  lemma FiresHere(env: Env, own: Marker, start: nat, n: nat)
    requires QuietRun(env, own, start, n) && FarApart(env.turns[start], env.turns[n])
    requires forall k :: 0 <= k < n ==> Passes(env, own, env.turns[k]) && !Fires(env, own, k)
    ensures RestartsAt(env, own, n)
    ensures EndsAt(env, own, n, if env.restartOk then Restarted else RestartFailed)
  {
  }

  lemma DoesNotFire(env: Env, own: Marker, start: nat, n: nat)
    requires QuietRun(env, own, start, n) && !FarApart(env.turns[start], env.turns[n])
    ensures !Fires(env, own, n)
  {
    if Fires(env, own, n) {
      var i: nat :| QuietRun(env, own, i, n) && FarApart(env.turns[i], env.turns[n]);
      RunStart(env, own, i, start, n);
    }
  }
}
