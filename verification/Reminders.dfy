/** Reminders: a broker that claims and validates, an adapter that records each send in a new
    file, and hosts that may overlap, fail at any call, lose any answer, or die. */
module Reminders {
  import opened Text

  type Work = nat
  type Claim = nat
  type Pid = nat

  datatype Status = Due | Waiting | Stopped

  datatype Plan = Plan(status: Status, signature: string, destination: string)

  datatype Receipt = Receipt(claim: Claim, destination: string, signature: string, message: string)

  datatype Phase = Idle | Claimed | Unknown | Sent | Suppressed

  /** The broker's record of one work item. */
  datatype Control = Control(phase: Phase, claim: Option<Claim>, plan: Option<Plan>, receipt: Option<Receipt>)

  /** A file of the adapter: complete, or created and then cut off. */
  datatype Disk = Full(receipt: Receipt) | Torn

  /** What becomes of the write: all of it, a file without its content, or no file at all. */
  datatype Writing = Written | CutOff | NoFile

  /** A permission to send: the process that was given it, and the plan. */
  datatype Permit = Permit(pid: Pid, plan: Plan)

  /** `permits` are the permissions given and not used; `sends` lists every call of the adapter's
      `send`. A permission dies with its process. */
  datatype State = State(works: map<Work, Control>, nextClaim: Claim, files: map<Claim, Disk>,
                         permits: map<Claim, Permit>, sends: seq<Claim>)

  const EMPTY := Control(Idle, None, None, None)

  function ControlOf(s: State, w: Work): Control { if w in s.works then s.works[w] else EMPTY }

  /** The calls; `plan` is what the broker computes from the observation at that moment. */
  datatype Step =
    | Observe(pid: Pid, w: Work, plan: Plan)
    | ClaimStep(pid: Pid, w: Work, plan: Plan, signature: string)
    | Validate(pid: Pid, w: Work, claim: Claim, plan: Plan)
    | Send(pid: Pid, claim: Claim, writing: Writing, message: string)
    | Settle(pid: Pid, w: Work, claim: Claim, receipt: Receipt)
    | Die(pid: Pid)

  predicate InFlight(p: Phase) { p == Claimed || p == Unknown }

  function WithControl(s: State, w: Work, c: Control): State { s.(works := s.works[w := c]) }

  function NextObserve(s: State, w: Work, plan: Plan): State {
    var c := ControlOf(s, w);
    if InFlight(c.phase) then s else WithControl(s, w, c.(plan := Some(plan)))
  }

  predicate CanClaim(s: State, w: Work, plan: Plan, signature: string) {
    var c := ControlOf(s, w);
    !InFlight(c.phase) && plan.status == Due && signature == plan.signature
    && c.plan.Some? && c.plan.value.signature == signature
  }

  function NextClaim(s: State, w: Work, plan: Plan, signature: string): State {
    if !CanClaim(s, w, plan, signature) then s
    else
      WithControl(s, w, Control(Claimed, Some(s.nextClaim), Some(plan), ControlOf(s, w).receipt))
        .(nextClaim := s.nextClaim + 1)
  }

  predicate CanSend(s: State, w: Work, claim: Claim, plan: Plan) {
    var c := ControlOf(s, w);
    c.phase == Claimed && c.claim == Some(claim) && plan.status == Due
    && c.plan.Some? && c.plan.value.signature == plan.signature
  }

  /** The one-shot gate: the phase turns unknown in the same call that permits the send. */
  function NextValidate(s: State, pid: Pid, w: Work, claim: Claim, plan: Plan): State {
    var c := ControlOf(s, w);
    if c.phase != Claimed || c.claim != Some(claim) then s
    else if !CanSend(s, w, claim, plan) then WithControl(s, w, c.(phase := Suppressed))
    else
      WithControl(s, w, c.(phase := Unknown)).(permits := s.permits[claim := Permit(pid, c.plan.value)])
  }

  function NewReceipt(claim: Claim, plan: Plan, message: string): Receipt {
    Receipt(claim, plan.destination, plan.signature, message)
  }

  function NextSend(s: State, pid: Pid, claim: Claim, writing: Writing, message: string): State {
    if claim !in s.permits || s.permits[claim].pid != pid then s
    else
      var plan := s.permits[claim].plan;
      s.(permits := s.permits - {claim}, sends := s.sends + [claim],
         files := if claim in s.files || writing == NoFile then s.files
                  else s.files[claim := if writing == Written then Full(NewReceipt(claim, plan, message)) else Torn])
  }

  /** The broker accepts a receipt for an unknown item, and again the one that it has for a sent one. */
  predicate CanSettle(s: State, w: Work, claim: Claim, r: Receipt) {
    var c := ControlOf(s, w);
    c.claim == Some(claim) && (c.phase == Unknown || (c.phase == Sent && c.receipt == Some(r)))
    && r.claim == claim && c.plan.Some?
    && r.destination == c.plan.value.destination && r.signature == c.plan.value.signature && MessageOk(r.message)
  }

  predicate MessageOk(message: string) { message != "" && Utf8Length(message) <= 160 }

  /** Settling again with the same receipt changes nothing. */
  function NextSettle(s: State, w: Work, claim: Claim, r: Receipt): State {
    if CanSettle(s, w, claim, r) then WithControl(s, w, ControlOf(s, w).(phase := Sent, receipt := Some(r))) else s
  }

  /** A host passes on a receipt only when the adapter has it on record. */
  predicate Honest(s: State, step: Step) {
    step.Settle? ==> step.claim in s.files && s.files[step.claim] == Full(step.receipt)
  }

  function Next(s: State, step: Step): State {
    match step
    case Observe(_, w, plan) => NextObserve(s, w, plan)
    case ClaimStep(_, w, plan, signature) => NextClaim(s, w, plan, signature)
    case Validate(pid, w, claim, plan) => NextValidate(s, pid, w, claim, plan)
    case Send(pid, claim, writing, message) => NextSend(s, pid, claim, writing, message)
    case Settle(_, w, claim, receipt) => if Honest(s, step) then NextSettle(s, w, claim, receipt) else s
    case Die(pid) => s.(permits := map c | c in s.permits && s.permits[c].pid != pid :: s.permits[c])
  }

  function Steps(s: State, steps: seq<Step>): State {
    if steps == [] then s else Next(Steps(s, steps[..|steps| - 1]), steps[|steps| - 1])
  }

  // ---------------------------------------------------------------- the invariant

  predicate Used(s: State, c: Claim) { c in s.permits || c in s.sends }

  predicate WorkOk(s: State, w: Work)
    requires w in s.works
  {
    var c := s.works[w];
    (c.claim.Some? ==> c.claim.value < s.nextClaim)
    && (InFlight(c.phase) ==> c.claim.Some? && c.plan.Some?)
    && (c.phase == Claimed ==> !Used(s, c.claim.value))
    && (c.phase == Sent ==> c.claim.Some? && c.receipt.Some? && c.claim.value in s.files
                            && s.files[c.claim.value] == Full(c.receipt.value))
    && (c.phase == Unknown && c.claim.value in s.permits ==> s.permits[c.claim.value].plan == c.plan.value)
    && (c.phase == Unknown && c.claim.value in s.files && s.files[c.claim.value].Full? ==>
          s.files[c.claim.value].receipt.destination == c.plan.value.destination
          && s.files[c.claim.value].receipt.signature == c.plan.value.signature)
  }

  ghost predicate WorksOk(s: State) { forall w :: w in s.works ==> WorkOk(s, w) }

  /** No claim belongs to two work items. */
  ghost predicate OwnClaims(s: State) {
    forall v, w :: v in s.works && w in s.works && s.works[v].claim.Some? && s.works[v].claim == s.works[w].claim ==>
      v == w
  }

  /** Every claim is sent at most once; files come from sends; an unused permission is unsent. */
  ghost predicate SendsOk(s: State) {
    (forall i, j :: 0 <= i < j < |s.sends| ==> s.sends[i] != s.sends[j])
    && (forall c :: c in s.sends ==> c < s.nextClaim && c !in s.permits)
    && (forall c :: c in s.permits ==> c < s.nextClaim)
    && (forall c :: c in s.files ==> c in s.sends && (s.files[c].Full? ==> s.files[c].receipt.claim == c))
  }

  ghost predicate Inv(s: State) { WorksOk(s) && OwnClaims(s) && SendsOk(s) }

  /** One work item changes; its claim stays or is new. */
  lemma WorkChanges(s: State, w: Work, c: Control, n: State)
    requires Inv(s) && n.works == s.works[w := c] && n.files == s.files && n.sends == s.sends && n.permits == s.permits
    requires n.nextClaim >= s.nextClaim && WorkOk(n, w)
    requires c.claim == ControlOf(s, w).claim || c.claim == Some(s.nextClaim)
    ensures Inv(n)
  {
    forall v | v in n.works
      ensures WorkOk(n, v)
    {
      if v != w { assert WorkOk(s, v); }
    }
    assert OwnClaims(n) by {
      forall v, u | v in n.works && u in n.works && n.works[v].claim.Some? && n.works[v].claim == n.works[u].claim
        ensures v == u
      {
        if v in s.works { assert WorkOk(s, v); }
        if u in s.works { assert WorkOk(s, u); }
      }
    }
  }

  lemma ObserveKeeps(s: State, w: Work, plan: Plan)
    requires Inv(s)
    ensures Inv(NextObserve(s, w, plan))
  {
    if w in s.works { assert WorkOk(s, w); }
    if NextObserve(s, w, plan) != s {
      WorkChanges(s, w, ControlOf(s, w).(plan := Some(plan)), NextObserve(s, w, plan));
    }
  }

  lemma ClaimKeeps(s: State, w: Work, plan: Plan, signature: string)
    requires Inv(s)
    ensures Inv(NextClaim(s, w, plan, signature))
  {
    if CanClaim(s, w, plan, signature) {
      var n := NextClaim(s, w, plan, signature);
      assert !Used(s, s.nextClaim);
      WorkChanges(s, w, n.works[w], n);
    }
  }

  /** Permitting: the claim has never been used, and no other work item has it. */
  lemma ValidateKeeps(s: State, pid: Pid, w: Work, claim: Claim, plan: Plan)
    requires Inv(s)
    ensures Inv(NextValidate(s, pid, w, claim, plan))
  {
    var n := NextValidate(s, pid, w, claim, plan);
    if n != s {
      assert WorkOk(s, w);
      forall v | v in n.works
        ensures WorkOk(n, v)
      {
        assert WorkOk(s, v);
      }
    }
  }

  lemma SendKeeps(s: State, pid: Pid, claim: Claim, writing: Writing, message: string)
    requires Inv(s)
    ensures Inv(NextSend(s, pid, claim, writing, message))
  {
    var n := NextSend(s, pid, claim, writing, message);
    if n != s {
      assert claim !in s.files;
      forall v | v in n.works
        ensures WorkOk(n, v)
      {
        assert WorkOk(s, v);
      }
    }
  }

  lemma SettleKeeps(s: State, w: Work, claim: Claim, r: Receipt)
    requires Inv(s) && claim in s.files && s.files[claim] == Full(r)
    ensures Inv(NextSettle(s, w, claim, r))
  {
    if CanSettle(s, w, claim, r) {
      assert WorkOk(s, w);
      var n := NextSettle(s, w, claim, r);
      WorkChanges(s, w, n.works[w], n);
    }
  }

  lemma DieKeeps(s: State, pid: Pid)
    requires Inv(s)
    ensures Inv(Next(s, Die(pid)))
  {
    var n := Next(s, Die(pid));
    forall v | v in n.works
      ensures WorkOk(n, v)
    {
      assert WorkOk(s, v);
    }
  }

  lemma NextKeeps(s: State, step: Step)
    requires Inv(s)
    ensures Inv(Next(s, step))
  {
    hide Inv, NextObserve, NextClaim, NextValidate, NextSend, NextSettle;
    match step {
      case Observe(_, w, plan) => ObserveKeeps(s, w, plan);
      case ClaimStep(_, w, plan, signature) => ClaimKeeps(s, w, plan, signature);
      case Validate(pid, w, claim, plan) => ValidateKeeps(s, pid, w, claim, plan);
      case Send(pid, claim, writing, message) => SendKeeps(s, pid, claim, writing, message);
      case Settle(_, w, claim, receipt) => if Honest(s, step) { SettleKeeps(s, w, claim, receipt); }
      case Die(pid) => DieKeeps(s, pid);
    }
  }

  /** Over every run: no claim is sent twice, and what is settled was really recorded. */
  lemma {:induction false} RunKeeps(s: State, steps: seq<Step>)
    requires Inv(s)
    ensures Inv(Steps(s, steps))
  {
    hide Inv, Next;
    if steps == [] {
    } else {
      RunKeeps(s, steps[..|steps| - 1]);
      NextKeeps(Steps(s, steps[..|steps| - 1]), steps[|steps| - 1]);
    }
  }

  /** A work item in phase unknown is never claimed again and gets no new permission: all that can
      happen to it is being settled, with the receipt that the adapter has on record. */
  lemma UnknownOnlySettles(s: State, step: Step, w: Work)
    requires Inv(s) && w in s.works && s.works[w].phase == Unknown
    ensures var n := Next(s, step);
            var claim := s.works[w].claim.value;
            w in n.works
            && (n.works[w] == s.works[w]
                || (claim in s.files && s.files[claim].Full?
                    && n.works[w] == s.works[w].(phase := Sent, receipt := Some(s.files[claim].receipt))))
            && (claim in n.permits ==> claim in s.permits)
  {
    hide OwnClaims, SendsOk;
    assert WorkOk(s, w);
    if step.Validate? && step.w != w && step.w in s.works && s.works[step.w].claim.Some? {
      assert WorkOk(s, step.w);
      DistinctClaims(s, step.w, w);
    }
  }

  lemma DistinctClaims(s: State, v: Work, w: Work)
    requires Inv(s) && v in s.works && w in s.works && v != w && s.works[v].claim.Some?
    ensures s.works[v].claim != s.works[w].claim
  {
  }

  // ---------------------------------------------------------------- one run of the host

  /** What the rest of the world does between two calls: steps of other processes. */
  type Others = seq<Step>

  predicate NotMine(pid: Pid, steps: seq<Step>) { forall i :: 0 <= i < |steps| ==> steps[i].pid != pid }

  /** How the calls for one work item turn out: a call may raise before it had an effect, or its
      answer may be lost. The three plans are what the broker computes at each of its looks. */
  datatype Call = Answered | LostAnswer | NoEffect

  datatype Turn = Turn(before: Others, lookup: Others, observed: Plan, observe: Call, grant: Others, atClaim: Plan,
                       claim: Call, between: Others, again: Plan, validate: Call, gate: Others, writing: Writing,
                       message: string, send: Call, after: Others, settle: Call)

  predicate TurnOk(pid: Pid, t: Turn) {
    NotMine(pid, t.before) && NotMine(pid, t.lookup) && NotMine(pid, t.grant) && NotMine(pid, t.between)
    && NotMine(pid, t.gate) && NotMine(pid, t.after)
  }

  /** Files are never overwritten, and a permission is safe from other processes. */
  lemma {:induction false} RecordsStay(s: State, steps: seq<Step>, claim: Claim, pid: Pid)
    requires NotMine(pid, steps)
    ensures claim in s.files ==> claim in Steps(s, steps).files && Steps(s, steps).files[claim] == s.files[claim]
    ensures Inv(s) && claim in s.permits && s.permits[claim].pid == pid ==>
              claim in Steps(s, steps).permits && Steps(s, steps).permits[claim] == s.permits[claim]
  {
    hide Inv, Next;
    if steps == [] {
    } else {
      var n := |steps| - 1;
      RecordsStay(s, steps[..n], claim, pid);
      var m := Steps(s, steps[..n]);
      if Inv(s) {
        RunKeeps(s, steps[..n]);
        if claim in s.permits && s.permits[claim].pid == pid { PermitStays(m, steps[n], claim, pid); }
      }
      FileStays(m, steps[n], claim);
    }
  }

  lemma OneSendStays(s: State, step: Step, claim: Claim)
    ensures claim in s.sends ==> claim in Next(s, step).sends
  {
  }

  /** A send that was made stays on the list. */
  lemma {:induction false} SendsStay(s: State, steps: seq<Step>, claim: Claim)
    ensures claim in s.sends ==> claim in Steps(s, steps).sends
  {
    hide Next;
    if steps == [] {
    } else {
      SendsStay(s, steps[..|steps| - 1], claim);
      OneSendStays(Steps(s, steps[..|steps| - 1]), steps[|steps| - 1], claim);
    }
  }

  lemma FileStays(s: State, step: Step, claim: Claim)
    ensures claim in s.files ==> claim in Next(s, step).files && Next(s, step).files[claim] == s.files[claim]
  {
  }

  lemma PermitStays(s: State, step: Step, claim: Claim, pid: Pid)
    requires Inv(s) && claim in s.permits && s.permits[claim].pid == pid && step.pid != pid
    ensures claim in Next(s, step).permits && Next(s, step).permits[claim] == s.permits[claim]
  {
    if step.Validate? && step.w in s.works { assert WorkOk(s, step.w); }
  }

  function StatusText(status: Status): string {
    match status case Due => "due" case Waiting => "waiting" case Stopped => "stopped"
  }

  datatype Result = Stated(status: string) | Incomplete

  /** What the request for a claim finds. */
  function AtClaim(s: State, pid: Pid, w: Work, t: Turn): State {
    Steps(Next(Steps(s, t.lookup), Observe(pid, w, t.observed)), t.grant)
  }

  /** The observation is answered, finds the item due, and the request for a claim is answered. */
  predicate Asks(t: Turn) { t.observe == Answered && t.observed.status == Due && t.claim == Answered }

  /** The claim under which an item is worked on: the one it stands under, or a fresh one if the
      observation and the claim are answered and the claim is granted. */
  function ClaimFor(s: State, pid: Pid, w: Work, t: Turn): Option<Claim> {
    if InFlight(ControlOf(s, w).phase) then ControlOf(s, w).claim
    else if Asks(t) && CanClaim(AtClaim(s, pid, w, t), w, t.atClaim, t.observed.signature) then
      Some(AtClaim(s, pid, w, t).nextClaim)
    else None
  }

  /** What the validation finds. */
  function AtValidation(s: State, pid: Pid, w: Work, t: Turn): State {
    if InFlight(ControlOf(s, w).phase) then Steps(s, t.between)
    else Steps(Next(AtClaim(s, pid, w, t), ClaimStep(pid, w, t.atClaim, t.observed.signature)), t.between)
  }

  /** The validation is asked for and answered. */
  predicate Validates(s: State, pid: Pid, w: Work, t: Turn) {
    ControlOf(s, w).phase != Unknown && ClaimFor(s, pid, w, t).Some? && t.validate == Answered
  }

  /** The item still stands claimed under the claim. */
  predicate Stands(s: State, w: Work, claim: Claim) {
    ControlOf(s, w).phase == Claimed && ControlOf(s, w).claim == Some(claim)
  }

  /** The item is sent in this turn: it is claimed and validated, and both were answered. */
  predicate MaySend(s: State, pid: Pid, w: Work, t: Turn) {
    Validates(s, pid, w, t) && CanSend(AtValidation(s, pid, w, t), w, ClaimFor(s, pid, w, t).value, t.again)
  }

  /** What is reported for an item that was not unknown and for which nothing was sent. */
  function UnsentResult(s: State, pid: Pid, w: Work, t: Turn): Result {
    if ClaimFor(s, pid, w, t).Some? then
      if t.validate == Answered && Stands(AtValidation(s, pid, w, t), w, ClaimFor(s, pid, w, t).value)
      then Stated("suppressed") else Incomplete
    else if t.observe == Answered && t.observed.status != Due then Stated(StatusText(t.observed.status))
    else if !Asks(t) then Incomplete
    else if InFlight(ControlOf(AtClaim(s, pid, w, t), w).phase) then Stated("unknown")
    else if t.atClaim.status != Due then Stated(StatusText(t.atClaim.status))
    else Incomplete
  }

  /** The item counts as sent, with the receipt that the adapter has on record for its claim. */
  predicate IsSent(s: State, w: Work, claim: Claim) {
    var c := ControlOf(s, w);
    c.phase == Sent && c.claim == Some(claim) && c.receipt.Some? && claim in s.files
    && s.files[claim] == Full(c.receipt.value)
  }

  class Host {
    const pid: Pid
    var s: State

    constructor (pid: Pid, s: State)
      ensures this.pid == pid && this.s == s
    {
      this.pid := pid;
      this.s := s;
    }

    /** Other processes run. */
    method Meanwhile(others: Others)
      requires Inv(s) && NotMine(pid, others)
      modifies this
      ensures s == Steps(old(s), others) && Inv(s)
    {
      hide Inv, Next;
      RunKeeps(s, others);
      s := Steps(s, others);
    }

    /** One call of this host; the answer may be lost, or the call may have no effect at all. */
    method Do(step: Step, call: Call) returns (ok: bool)
      requires Inv(s) && Honest(s, step)
      modifies this
      ensures Inv(s) && ok == (call == Answered) && s == if call == NoEffect then old(s) else Next(old(s), step)
    {
      hide Inv, Next;
      NextKeeps(s, step);
      if call != NoEffect { s := Next(s, step); }
      ok := call == Answered;
    }

    /** `run_once` for one work item. An unknown item is only looked up and settled with what the
        adapter recorded: nothing is sent for it, and if it is still unknown and its receipt is
        complete, it becomes sent with that receipt. A claimed item is resumed with its own claim.
        A send is made exactly when the claim stands or is granted and the validation permits it.
        An item is reported as sent only if it is, and as suppressed only if it was. `calls` are
        the calls made. */
    method ProcessWork(w: Work, t: Turn) returns (r: Result, calls: seq<Step>)
      requires Inv(s) && TurnOk(pid, t)
      modifies this
      ensures Inv(s)
      ensures var seen := ControlOf(Steps(old(s), t.before), w);
              (seen.phase == Unknown ==>
                    forall c :: c in calls ==> c.Settle? && c.w == w && Some(c.claim) == seen.claim)
              && (seen.phase == Claimed ==>
                    forall c :: c in calls ==>
                      !c.Observe? && !c.ClaimStep? && (c.Send? ==> Some(c.claim) == seen.claim))
      ensures var start := Steps(old(s), t.before);
              (exists c :: c in calls && c.Send?) <==> MaySend(start, pid, w, t)
      ensures var start := Steps(old(s), t.before);
              MaySend(start, pid, w, t) && t.send != NoEffect ==> ClaimFor(start, pid, w, t).value in s.sends
      ensures var seen := ControlOf(Steps(old(s), t.before), w);
              seen.phase == Unknown ==>
                seen.claim.Some?
                && FoundUnknown(Steps(Steps(old(s), t.before), t.lookup), w, seen, t, s, r)
      ensures var start := Steps(old(s), t.before);
              ControlOf(start, w).phase != Unknown && !MaySend(start, pid, w, t) ==> r == UnsentResult(start, pid, w, t)
      ensures r == Stated("suppressed") ==> ControlOf(s, w).phase == Suppressed
      ensures var start := Steps(old(s), t.before);
              MaySend(start, pid, w, t) ==>
                (r == Incomplete || r == Stated("sent"))
                && (r == Stated("sent") ==>
                      IsSent(s, w, ClaimFor(start, pid, w, t).value)
                      && t.send == Answered && t.writing == Written && t.settle == Answered)
                && (Smooth(t) && t.gate == [] ==> r == Stated("sent"))
    {
      hide Inv, Next, CanClaim, CanSend, CanSettle, FoundUnknown, MessageOk, StatusText;
      calls := [];
      Meanwhile(t.before);
      var seen := ControlOf(s, w);
      var claim: Claim;
      if InFlight(seen.phase) {
        assert seen.claim.Some? by { InFlightHasClaim(s, w); }
        claim := seen.claim.value;
        if seen.phase == Unknown {
          r, calls := SettleUnknown(w, seen, t);
          return;
        }
      } else {
        var granted: Option<Claim>;
        r, calls, granted := ClaimWork(w, t);
        if granted.None? { StatusesDiffer(); return; }
        claim := granted.value;
      }
      Meanwhile(t.between);
      var stands, sendable := Stands(s, w, claim), CanSend(s, w, claim, t.again);
      var step := Validate(pid, w, claim, t.again);
      ValidateWhat(s, step);
      ghost var gated := Next(s, step);
      var ok := Do(step, t.validate);
      calls := calls + [step];
      if !ok || !stands { return Incomplete, calls; }
      if !sendable { return Stated("suppressed"), calls; }
      RecordsStay(s, t.gate, claim, pid);
      Meanwhile(t.gate);
      assert t.gate == [] ==> s == gated;
      r, calls := SendWork(w, claim, t, calls);
    }

    /** An unknown item: look for its receipt, and settle it with that. */
    method SettleUnknown(w: Work, seen: Control, t: Turn) returns (r: Result, calls: seq<Step>)
      requires Inv(s) && TurnOk(pid, t) && ControlOf(s, w) == seen && seen.phase == Unknown && seen.claim.Some?
      modifies this
      ensures Inv(s)
      ensures forall c :: c in calls ==> c.Settle? && c.w == w && c.claim == seen.claim.value
      ensures FoundUnknown(Steps(old(s), t.lookup), w, seen, t, s, r)
      ensures r != Stated("suppressed")
    {
      hide Inv, Next, CanSettle;
      var claim := seen.claim.value;
      calls := [];
      Meanwhile(t.lookup);
      if claim !in s.files { return Stated("unknown"), calls; }
      if s.files[claim].Torn? { return Incomplete, calls; }
      var receipt := s.files[claim].receipt;
      RecordsStay(s, t.after, claim, pid);
      Meanwhile(t.after);
      r, calls := SettleWork(w, claim, receipt, t.settle, calls);
    }

    /** `run_once` over one page: one result per work item, whatever raised on the way. */
    method RunOnce(page: seq<Work>, turns: seq<Turn>) returns (results: seq<Result>)
      requires Inv(s) && |turns| == |page| && forall i :: 0 <= i < |turns| ==> TurnOk(pid, turns[i])
      modifies this
      ensures Inv(s) && |results| == |page|
    {
      hide Inv;
      results := [];
      for i := 0 to |page|
        invariant Inv(s) && |results| == i
      {
        var r, _ := ProcessWork(page[i], turns[i]);
        results := results + [r];
      }
    }

    /** Observe and claim. */
    method ClaimWork(w: Work, t: Turn) returns (r: Result, calls: seq<Step>, granted: Option<Claim>)
      requires Inv(s) && TurnOk(pid, t)
      modifies this
      ensures Inv(s)
      ensures forall c :: c in calls ==> c.Observe? || c.ClaimStep?
      ensures !InFlight(ControlOf(old(s), w).phase) ==>
                granted == ClaimFor(old(s), pid, w, t)
                && (granted.Some? ==>
                      s == Next(AtClaim(old(s), pid, w, t), ClaimStep(pid, w, t.atClaim, t.observed.signature)))
                && (granted.None? ==> r == UnsentResult(old(s), pid, w, t))
      ensures granted.None? ==>
                r == Incomplete || r == Stated("unknown") || exists status :: r == Stated(StatusText(status))
    {
      hide Inv, Next, StatusText;
      Meanwhile(t.lookup);
      var first := Observe(pid, w, t.observed);
      var ok := Do(first, t.observe);
      calls, granted := [first], None;
      if !ok { return Incomplete, calls, None; }
      if t.observed.status != Due { return Stated(StatusText(t.observed.status)), calls, None; }
      Meanwhile(t.grant);
      var second := ClaimStep(pid, w, t.atClaim, t.observed.signature);
      var grants, newClaim := CanClaim(s, w, t.atClaim, t.observed.signature), s.nextClaim;
      var active := InFlight(ControlOf(s, w).phase);
      ok := Do(second, t.claim);
      calls := calls + [second];
      if !ok { return Incomplete, calls, None; }
      if active { return Stated("unknown"), calls, None; }
      if t.atClaim.status != Due { return Stated(StatusText(t.atClaim.status)), calls, None; }
      if !grants { return Incomplete, calls, None; }
      r, granted := Stated("claimed"), Some(newClaim);
    }

    /** Send once, then settle with the receipt just recorded. */
    method SendWork(w: Work, claim: Claim, t: Turn, before: seq<Step>) returns (r: Result, calls: seq<Step>)
      requires Inv(s) && TurnOk(pid, t) && claim in s.permits && s.permits[claim].pid == pid
      modifies this
      ensures Inv(s)
      ensures before <= calls
              && forall i :: |before| <= i < |calls| ==> (calls[i].Send? || calls[i].Settle?) && calls[i].claim == claim
      ensures |before| < |calls| && calls[|before|].Send?
      ensures t.send != NoEffect ==> claim in s.sends
      ensures r == Incomplete || r == Stated("sent")
      ensures r == Stated("sent") ==>
                IsSent(s, w, claim) && t.send == Answered && t.writing == Written && t.settle == Answered
      ensures Smooth(t) && Permitted(old(s), w, claim) ==> r == Stated("sent")
    {
      hide Inv, Next, MessageOk, IsSent;
      var plan := s.permits[claim].plan;
      var step := Send(pid, claim, t.writing, t.message);
      var receipt := NewReceipt(claim, plan, t.message);
      assert claim !in s.files by { UnsentHasNoFile(s, claim); }
      SendRecords(s, step);
      var ok := Do(step, t.send);
      calls := before + [step];
      if !ok || t.writing != Written { return Incomplete, calls; }
      RecordsStay(s, t.after, claim, pid);
      SendsStay(s, t.after, claim);
      SendLeavesWork(old(s), step, w, claim);
      Meanwhile(t.after);
      r, calls := SettleWork(w, claim, receipt, t.settle, calls);
    }

    /** Settle with a receipt on record. */
    method SettleWork(w: Work, claim: Claim, receipt: Receipt, call: Call, before: seq<Step>)
      returns (r: Result, calls: seq<Step>)
      requires Inv(s) && claim in s.files && s.files[claim] == Full(receipt)
      modifies this
      ensures Inv(s) && calls == before + [Settle(pid, w, claim, receipt)]
      ensures r == Incomplete || r == Stated("sent")
      ensures r == Stated("sent") ==> call == Answered && IsSent(s, w, claim)
      ensures s.sends == old(s).sends && s.files == old(s).files
      ensures ControlOf(old(s), w).claim == Some(claim) && Recorded(old(s), w, ControlOf(old(s), w))
              && call != NoEffect ==>
                ControlOf(s, w) == ControlOf(old(s), w).(phase := Sent, receipt := Some(receipt))
                && (call == Answered ==> r == Stated("sent"))
    {
      hide Inv, Next, CanSettle;
      var step := Settle(pid, w, claim, receipt);
      var settles := CanSettle(s, w, claim, receipt);
      SettleSettles(s, pid, w, claim, receipt);
      SettledIsSent(s, pid, w, claim, receipt);
      var ok := Do(step, call);
      calls := before + [step];
      r := if ok && settles then Stated("sent") else Incomplete;
    }
  }

  /** The item is still unknown under its claim, and the adapter has a complete receipt for it. */
  predicate Recorded(s: State, w: Work, c: Control) {
    ControlOf(s, w) == c && c.phase == Unknown && c.claim.Some? && c.claim.value in s.files
    && s.files[c.claim.value].Full? && MessageOk(s.files[c.claim.value].receipt.message)
  }

  /** What becomes of an unknown item: without a receipt it stays unknown, and with one it is settled
      by it, unless it no longer is what it was or the call fails. */
  ghost predicate FoundUnknown(found: State, w: Work, seen: Control, t: Turn, s: State, r: Result)
    requires seen.claim.Some?
  {
    var claim := seen.claim.value;
    if claim !in found.files then s == found && r == Stated("unknown")
    else if found.files[claim].Torn? then s == found && r == Incomplete
    else
      var later := Steps(found, t.after);
      s.sends == later.sends && s.files == later.files && (r == Incomplete || r == Stated("sent"))
      && (r == Stated("sent") ==> t.settle == Answered && IsSent(s, w, claim))
      && (Recorded(later, w, seen) && t.settle != NoEffect ==>
            ControlOf(s, w) == seen.(phase := Sent, receipt := Some(found.files[claim].receipt))
            && (t.settle == Answered ==> r == Stated("sent")))
  }

  /** The send and the settling go through, and nobody comes in between. */
  predicate Smooth(t: Turn) {
    t.send == Answered && t.writing == Written && t.settle == Answered && MessageOk(t.message) && t.after == []
  }

  /** The item waits for the send that its claim permits. */
  predicate Permitted(s: State, w: Work, claim: Claim) {
    ControlOf(s, w).phase == Unknown && ControlOf(s, w).claim == Some(claim)
  }

  /** A send leaves the work items alone. */
  lemma SendLeavesWork(s: State, step: Step, w: Work, claim: Claim)
    requires Inv(s) && step.Send? && step.claim == claim && claim in s.permits && s.permits[claim].pid == step.pid
    requires claim !in s.files && step.writing == Written
    ensures Permitted(s, w, claim) && MessageOk(step.message) ==> Recorded(Next(s, step), w, ControlOf(s, w))
  {
    hide MessageOk;
  }

  lemma SettledIsSent(s: State, pid: Pid, w: Work, claim: Claim, receipt: Receipt)
    requires Inv(s) && claim in s.files && s.files[claim] == Full(receipt)
    ensures CanSettle(s, w, claim, receipt) ==> IsSent(Next(s, Settle(pid, w, claim, receipt)), w, claim)
  {
  }

  lemma StatusesDiffer()
    ensures forall status :: StatusText(status) != "suppressed"
  {
  }

  /** What a validation does: it permits the send, or suppresses a claimed item, or nothing. */
  lemma ValidateWhat(s: State, step: Step)
    requires step.Validate?
    ensures CanSend(s, step.w, step.claim, step.plan) ==>
              Stands(s, step.w, step.claim) && Permitted(Next(s, step), step.w, step.claim)
              && step.claim in Next(s, step).permits && Next(s, step).permits[step.claim].pid == step.pid
    ensures Stands(s, step.w, step.claim) && !CanSend(s, step.w, step.claim, step.plan) ==>
              ControlOf(Next(s, step), step.w).phase == Suppressed
  {
  }

  lemma SettleSettles(s: State, pid: Pid, w: Work, claim: Claim, receipt: Receipt)
    requires Inv(s) && claim in s.files && s.files[claim] == Full(receipt)
    ensures var n := Next(s, Settle(pid, w, claim, receipt));
            n.sends == s.sends && n.files == s.files
            && (ControlOf(s, w).claim == Some(claim) && Recorded(s, w, ControlOf(s, w)) ==>
                  CanSettle(s, w, claim, receipt)
                  && ControlOf(n, w) == ControlOf(s, w).(phase := Sent, receipt := Some(receipt)))
  {
    hide OwnClaims;
    if w in s.works { assert WorkOk(s, w); }
  }

  lemma InFlightHasClaim(s: State, w: Work)
    requires Inv(s) && InFlight(ControlOf(s, w).phase)
    ensures ControlOf(s, w).claim.Some?
  {
    assert WorkOk(s, w);
  }

  lemma UnsentHasNoFile(s: State, claim: Claim)
    requires Inv(s) && claim in s.permits
    ensures claim !in s.files
  {
  }

  lemma SendRecords(s: State, step: Step)
    requires step.Send? && step.claim in s.permits && s.permits[step.claim].pid == step.pid
    requires step.claim !in s.files
    ensures step.claim in Next(s, step).sends
    ensures step.writing == Written ==>
              step.claim in Next(s, step).files
              && Next(s, step).files[step.claim]
                 == Full(NewReceipt(step.claim, s.permits[step.claim].plan, step.message))
  {
  }

  /** The item is found due and stays so, and every call is answered with nobody in between. */
  predicate Undisturbed(t: Turn) {
    && t.observed.status == Due && t.atClaim == t.observed && t.again == t.observed
    && t.observe == Answered && t.claim == Answered && t.validate == Answered
    && t.lookup == [] && t.grant == [] && t.between == [] && t.gate == [] && Smooth(t)
  }

  /** A due item that nothing is in flight for is sent in an undisturbed turn. */
  lemma DueIsSent(s: State, pid: Pid, w: Work, t: Turn)
    requires !InFlight(ControlOf(s, w).phase) && Undisturbed(t)
    ensures MaySend(s, pid, w, t)
  {
  }

  /** And one that is no longer due, or whose plan has changed, is suppressed at the gate. */
  lemma ChangedIsSuppressed(s: State, pid: Pid, w: Work, t: Turn, again: Plan)
    requires !InFlight(ControlOf(s, w).phase) && Undisturbed(t)
    requires again.status != Due || again.signature != t.observed.signature
    ensures var u := t.(again := again);
            !MaySend(s, pid, w, u) && UnsentResult(s, pid, w, u) == Stated("suppressed")
  {
  }

  const START := State(map[], 0, map[], map[], [])

  /** Any number of overlapping hosts, failing and dying anywhere: no claim is ever sent twice,
      and an item that counts as sent has the receipt that the adapter recorded for its claim. */
  lemma SentOnceAndRecorded(steps: seq<Step>)
    ensures var s := Steps(START, steps);
            (forall i, j :: 0 <= i < j < |s.sends| ==> s.sends[i] != s.sends[j])
            && forall w :: w in s.works && s.works[w].phase == Sent ==>
                 s.works[w].claim.Some? && s.works[w].receipt.Some? && s.works[w].claim.value in s.sends
                 && s.works[w].claim.value in s.files
                 && s.files[s.works[w].claim.value] == Full(s.works[w].receipt.value)
  {
    hide Steps;
    assert Inv(START);
    RunKeeps(START, steps);
    var s := Steps(START, steps);
    forall w | w in s.works && s.works[w].phase == Sent
      ensures s.works[w].claim.Some? && s.works[w].claim.value in s.files
    {
      assert WorkOk(s, w);
    }
  }

  /** What an unknown item can become while other processes run: it stays, or at some point it is
      settled, with the receipt that the adapter then has on record. */
  lemma {:induction false} UnknownUntilSettled(s: State, steps: seq<Step>, w: Work)
    requires Inv(s) && w in s.works && s.works[w].phase == Unknown
    ensures ControlOf(Steps(s, steps), w) == s.works[w]
            || exists k, r :: 0 <= k <= |steps| && SettledAt(s, steps, k, w, r)
  {
    hide Next, Inv;
    InFlightHasClaim(s, w);
    if steps == [] {
    } else {
      var n := |steps| - 1;
      UnknownUntilSettled(s, steps[..n], w);
      if ControlOf(Steps(s, steps[..n]), w) == s.works[w] {
        RunKeeps(s, steps[..n]);
        var m := Steps(s, steps[..n]);
        UnknownOnlySettles(m, steps[n], w);
        if ControlOf(Next(m, steps[n]), w) != s.works[w] {
          var r := m.files[s.works[w].claim.value].receipt;
          FileStays(m, steps[n], s.works[w].claim.value);
          assert steps[..|steps|] == steps;
          assert SettledAt(s, steps, |steps|, w, r);
        }
      } else {
        var k, r :| 0 <= k <= n && SettledAt(s, steps[..n], k, w, r);
        assert steps[..n][..k] == steps[..k];
        assert SettledAt(s, steps, k, w, r);
      }
    }
  }

  /** After k steps the item is sent, with the receipt on record for its claim. */
  ghost predicate SettledAt(s: State, steps: seq<Step>, k: int, w: Work, r: Receipt)
    requires w in s.works && s.works[w].phase == Unknown
  {
    && 0 <= k <= |steps| && s.works[w].claim.Some?
    && ControlOf(Steps(s, steps[..k]), w) == s.works[w].(phase := Sent, receipt := Some(r))
    && s.works[w].claim.value in Steps(s, steps[..k]).files
    && Steps(s, steps[..k]).files[s.works[w].claim.value] == Full(r)
  }
}
