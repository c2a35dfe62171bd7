/** The welcome host: a presentation is claimed once, sent through an in-memory transport, and
    settled with the transport's own receipt. */
module Welcome {
  import opened Text

  type Claim = nat

  datatype Status = Pending | Claimed | Unknown | Failed | Stale | Delivered

  /** The broker's record of one presentation. */
  datatype Presentation = Presentation(status: Status, claim: Option<Claim>, receipt: Option<string>)

  /** `claims` counts the claims handed out and `calls` lists every call of the transport's `send`;
      `sent` is the transport's dictionary, which lives in the memory of the host process. */
  datatype State = State(p: Presentation, nextClaim: Claim, claims: nat, sent: set<Claim>, calls: seq<Claim>,
                         receiptOf: Claim -> string)

  /** How a call turns out: answered, done but the answer lost, not done, or the host dies there. */
  datatype Call = Answered | LostAnswer | NoEffect | DiesBefore | DiesAfter

  datatype Reply = Sent(status: Status) | Raised | Dead

  predicate Happens(c: Call) { c == Answered || c == LostAnswer || c == DiesAfter }

  predicate Dies(c: Call) { c == DiesBefore || c == DiesAfter }

  // ---------------------------------------------------------------- the broker and the transport

  /** Claiming: a pending presentation is claimed, or found stale. */
  function ClaimCall(s: State, current: bool): State {
    if s.p.status != Pending then s
    else if !current then s.(p := s.p.(status := Stale))
    else
      s.(p := Presentation(Claimed, Some(s.nextClaim), s.p.receipt), nextClaim := s.nextClaim + 1,
         claims := s.claims + 1)
  }

  /** A claim that was not settled in time becomes unknown. */
  function Expire(s: State): State { if s.p.status == Claimed then s.(p := s.p.(status := Unknown)) else s }

  /** Settling: an unknown outcome can only become delivered. */
  function ReceiptCall(s: State, claim: Claim, outcome: Status, receipt: Option<string>): State {
    if s.p.claim != Some(claim) || (outcome == Delivered && receipt.None?) then s
    else if s.p.status == Claimed || (s.p.status == Unknown && outcome == Delivered) then
      s.(p := s.p.(status := outcome, receipt := receipt))
    else s
  }

  /** `SimulatedTransport.send`; a second send of a claim raises. */
  function SendCall(s: State, claim: Claim): State { s.(sent := s.sent + {claim}, calls := s.calls + [claim]) }

  /** The host process dies and takes the transport's memory with it. */
  function Crash(s: State): State { s.(sent := {}) }

  // ---------------------------------------------------------------- the invariant

  /** At most one claim and at most one send; delivered means sent, with the transport's receipt. */
  ghost predicate Inv(s: State) {
    s.claims <= 1
    && (s.claims == 0 <==> s.p.claim.None?)
    && (s.p.status == Pending || s.p.status == Stale ==> s.claims == 0)
    && (s.p.claim.Some? ==> s.p.claim.value < s.nextClaim)
    && (s.calls == [] || (s.p.claim.Some? && s.calls == [s.p.claim.value]))
    && (forall c :: c in s.sent ==> c in s.calls)
    && (s.p.status == Delivered ==> s.calls != [] && s.p.receipt == Some(s.receiptOf(s.calls[0])))
  }

  /** Sent, not yet settled, and still in the memory of the transport. */
  predicate Recoverable(s: State, claim: Claim) {
    (s.p.status == Unknown || s.p.status == Claimed) && s.p.claim == Some(claim) && claim in s.sent
  }

  // ---------------------------------------------------------------- the operations as functions

  /** Before the first call. */
  function Fresh(receiptOf: Claim -> string, nextClaim: Claim): State {
    State(Presentation(Pending, None, None), nextClaim, 0, {}, [], receiptOf)
  }

  /** The state after a call that may not happen, and whether the process outlives it. */
  function Through(s: State, after: State, c: Call): State {
    var n := if Happens(c) then after else s;
    if Dies(c) then Crash(n) else n
  }

  function Reporting(s: State, claim: Claim, send: Call, receiptCall: Call): (State, Reply) {
    var sent := Through(s, SendCall(s, claim), send);
    if Dies(send) then (sent, Dead)
    else
      var outcome := if send == Answered then Delivered else Unknown;
      var receipt := if send == Answered then Some(sent.receiptOf(claim)) else None;
      var reported := Through(sent, ReceiptCall(sent, claim, outcome, receipt), receiptCall);
      (reported,
       if Dies(receiptCall) then Dead
       else if receiptCall == Answered then Sent(reported.p.status)
       else if outcome == Delivered then Sent(Unknown) else Raised)
  }

  function Delivering(s: State, current: bool, claimCall: Call, expires: bool, send: Call, receiptCall: Call)
    : (State, Reply)
  {
    var claimed := Through(s, ClaimCall(s, current), claimCall);
    if Dies(claimCall) then (claimed, Dead)
    else if claimCall != Answered then (claimed, Raised)
    else if s.p.status != Pending || !current then (claimed, Sent(claimed.p.status))
    else Reporting(if expires then Expire(claimed) else claimed, s.nextClaim, send, receiptCall)
  }

  function Recovering(s: State, claim: Claim, expires: bool, statusCall: Call, receiptCall: Call): (State, Reply) {
    var now := if expires then Expire(s) else s;
    if Dies(statusCall) then (Crash(now), Dead)
    else if statusCall != Answered then (now, Raised)
    else if now.p.status == Delivered || claim !in now.sent then (now, Sent(now.p.status))
    else
      var reported := Through(now, ReceiptCall(now, claim, Delivered, Some(now.receiptOf(claim))), receiptCall);
      (reported,
       if Dies(receiptCall) then Dead else if receiptCall == Answered then Sent(reported.p.status) else Raised)
  }

  class WelcomeHost {
    var s: State

    /** A host and a presentation that nobody has claimed yet. */
    constructor (receiptOf: Claim -> string, nextClaim: Claim)
      ensures Inv(s) && s == Fresh(receiptOf, nextClaim)
    {
      s := Fresh(receiptOf, nextClaim);
    }

    /** `deliver`: prepare is done; claim, send once, report. Only a run that was itself granted
        the claim calls the transport. */
    method Deliver(current: bool, claimCall: Call, expires: bool, send: Call, receiptCall: Call) returns (r: Reply)
      requires Inv(s)
      modifies this
      ensures Inv(s)
      ensures old(s).p.status != Pending ==> s.calls == old(s).calls && s.claims == old(s).claims
      ensures r == Sent(Delivered) ==> s.p.status == Delivered
      ensures (s, r) == Delivering(old(s), current, claimCall, expires, send, receiptCall)
      ensures s.calls == old(s).calls + if Granted(old(s), current, claimCall) && Happens(send) then [old(s).nextClaim]
                                        else []
      ensures Granted(old(s), current, claimCall) ==> Reports(old(s).nextClaim, expires, send, receiptCall, s, r)
      ensures old(s).p.status == Pending && !current ==>
                s.p.status == (if Happens(claimCall) then Stale else Pending)
                && (claimCall == Answered ==> r == Sent(Stale))
      ensures old(s).p.status != Pending ==> s.p == old(s).p && (claimCall == Answered ==> r == Sent(s.p.status))
    {
      hide Inv, Reports;
      ClaimKeeps(s, current);
      CrashKeeps(s);
      CrashKeeps(ClaimCall(s, current));
      var granted := s.p.status == Pending && current;
      var claim := s.nextClaim;
      if Happens(claimCall) { s := ClaimCall(s, current); }
      if Dies(claimCall) { s := Crash(s); return Dead; }
      if claimCall != Answered { return Raised; }
      if !granted { return Sent(s.p.status); }
      // Time passes: the claim may expire before the transport is called.
      if expires { ExpireKeeps(s); s := Expire(s); }
      assert s.calls == [] by { FreshIsUnsent(old(s)); }
      r := SendAndReport(claim, send, receiptCall);
    }

    /** The granted half of `deliver`. */
    method SendAndReport(claim: Claim, send: Call, receiptCall: Call) returns (r: Reply)
      requires Inv(s) && s.p.claim == Some(claim) && s.calls == []
      modifies this
      ensures Inv(s)
      ensures r == Sent(Delivered) ==> s.p.status == Delivered
      ensures (s, r) == Reporting(old(s), claim, send, receiptCall)
      ensures s.calls == old(s).calls + if Happens(send) then [claim] else []
      ensures (old(s).p.status == Claimed || old(s).p.status == Unknown) ==>
                Reports(claim, old(s).p.status == Unknown, send, receiptCall, s, r)
    {
      if s.p.status == Claimed || s.p.status == Unknown { ReportingReports(s, claim, send, receiptCall); }
      hide Inv, Reports;
      SendKeeps(s, claim);
      if Happens(send) { s := SendCall(s, claim); }
      CrashKeeps(s);
      if Dies(send) { s := Crash(s); return Dead; }
      var outcome, receipt := Delivered, Some(s.receiptOf(claim));
      if send != Answered { outcome, receipt := Unknown, None; }
      ReceiptKeeps(s, claim, outcome, receipt);
      if Happens(receiptCall) { s := ReceiptCall(s, claim, outcome, receipt); }
      CrashKeeps(s);
      if Dies(receiptCall) { s := Crash(s); return Dead; }
      // A lost answer to a delivery report is itself reported as unknown.
      r := if receiptCall == Answered then Sent(s.p.status) else if outcome == Delivered then Sent(Unknown) else Raised;
    }

    /** `recover`: a look at the transport, never a send. */
    method RecoverDelivery(claim: Claim, expires: bool, statusCall: Call, receiptCall: Call) returns (r: Reply)
      requires Inv(s)
      modifies this
      ensures Inv(s) && s.calls == old(s).calls && s.claims == old(s).claims
      ensures r == Sent(Delivered) ==> s.p.status == Delivered
      ensures (s, r) == Recovering(old(s), claim, expires, statusCall, receiptCall)
      ensures Recoverable(old(s), claim) && statusCall == Answered && Happens(receiptCall) ==>
                s.p == Presentation(Delivered, Some(claim), Some(s.receiptOf(claim)))
                && (receiptCall == Answered ==> r == Sent(Delivered))
      ensures !Recoverable(old(s), claim) ==>
                s.p == old(s).p || (expires && old(s).p.status == Claimed && s.p == old(s).p.(status := Unknown))
      ensures r.Sent? ==> r == Sent(s.p.status)
    {
      hide Inv;
      if expires { ExpireKeeps(s); s := Expire(s); }
      CrashKeeps(s);
      if Dies(statusCall) { s := Crash(s); return Dead; }
      if statusCall != Answered { return Raised; }
      var status := s.p.status;
      if status == Delivered { return Sent(Delivered); }
      if claim !in s.sent { return Sent(status); }
      assert claim in s.calls by { SentIsCalled(s, claim); }
      ReceiptKeeps(s, claim, Delivered, Some(s.receiptOf(claim)));
      if Happens(receiptCall) { s := ReceiptCall(s, claim, Delivered, Some(s.receiptOf(claim))); }
      CrashKeeps(s);
      if Dies(receiptCall) { s := Crash(s); return Dead; }
      r := if receiptCall == Answered then Sent(s.p.status) else Raised;
    }
  }

  /** This run is given the claim: nobody had it, and the answer arrives. */
  predicate Granted(s: State, current: bool, claimCall: Call) {
    s.p.status == Pending && current && claimCall == Answered
  }

  /** What becomes of a presentation that this run was given the claim of. It is delivered exactly if
      the send is answered and the report arrives; a send that is not answered is reported as
      unknown, and a report that is lost leaves the host with an unknown one. */
  predicate Reports(claim: Claim, expired: bool, send: Call, receiptCall: Call, s: State, r: Reply) {
    var reported := !Dies(send) && Happens(receiptCall);
    && s.p.claim == Some(claim)
    && (s.p.status == Delivered <==> send == Answered && reported)
    && (s.p.status == Delivered ==> s.p.receipt == Some(s.receiptOf(claim)))
    && (s.p.status != Delivered ==> s.p.status == if expired || reported then Unknown else Claimed)
    && r == (if Dies(send) || Dies(receiptCall) then Dead
             else if receiptCall == Answered then Sent(s.p.status)
             else if send == Answered then Sent(Unknown)
             else Raised)
  }

  lemma ReportingReports(s: State, claim: Claim, send: Call, receiptCall: Call)
    requires s.p.claim == Some(claim) && (s.p.status == Claimed || s.p.status == Unknown)
    ensures var out := Reporting(s, claim, send, receiptCall);
            Reports(claim, s.p.status == Unknown, send, receiptCall, out.0, out.1)
            && out.0.calls == s.calls + if Happens(send) then [claim] else []
  {
  }

  lemma ClaimKeeps(s: State, current: bool)
    requires Inv(s)
    ensures Inv(ClaimCall(s, current))
  {
  }

  lemma ExpireKeeps(s: State)
    requires Inv(s)
    ensures Inv(Expire(s))
  {
  }

  lemma CrashKeeps(s: State)
    requires Inv(s)
    ensures Inv(Crash(s))
  {
  }

  lemma SendKeeps(s: State, claim: Claim)
    requires Inv(s) && s.p.claim == Some(claim) && s.calls == []
    ensures Inv(SendCall(s, claim))
  {
  }

  /** A delivery is only reported with the receipt of a send that was made. */
  lemma ReceiptKeeps(s: State, claim: Claim, outcome: Status, receipt: Option<string>)
    requires Inv(s)
    requires (outcome == Unknown || (outcome == Delivered && claim in s.calls && receipt == Some(s.receiptOf(claim))))
    ensures Inv(ReceiptCall(s, claim, outcome, receipt))
  {
  }

  lemma FreshIsUnsent(s: State)
    requires Inv(s) && s.p.status == Pending
    ensures s.calls == []
  {
  }

  lemma SentIsCalled(s: State, claim: Claim)
    requires Inv(s) && claim in s.sent
    ensures claim in s.calls
  {
  }

  // ---------------------------------------------------------------- all runs

  /** Calls of the host, by any events and operators, in any order. */
  datatype Op =
    | DeliverOp(current: bool, claimCall: Call, expires: bool, send: Call, receiptCall: Call)
    | RecoverOp(claim: Claim, expires: bool, statusCall: Call, receiptCall: Call)

  function Step(s: State, op: Op): State {
    match op
    case DeliverOp(current, claimCall, expires, send, receiptCall) =>
      Delivering(s, current, claimCall, expires, send, receiptCall).0
    case RecoverOp(claim, expires, statusCall, receiptCall) => Recovering(s, claim, expires, statusCall, receiptCall).0
  }

  function Run(s: State, ops: seq<Op>): State {
    if ops == [] then s else Step(Run(s, ops[..|ops| - 1]), ops[|ops| - 1])
  }

  lemma ThroughKeeps(s: State, after: State, c: Call)
    requires Inv(s) && Inv(after)
    ensures Inv(Through(s, after, c))
  {
    CrashKeeps(s);
    CrashKeeps(after);
  }

  lemma ReportingKeeps(s: State, claim: Claim, send: Call, receiptCall: Call)
    requires Inv(s) && s.p.claim == Some(claim) && s.calls == []
    ensures Inv(Reporting(s, claim, send, receiptCall).0)
  {
    hide Inv;
    SendKeeps(s, claim);
    ThroughKeeps(s, SendCall(s, claim), send);
    var sent := Through(s, SendCall(s, claim), send);
    var outcome := if send == Answered then Delivered else Unknown;
    var receipt := if send == Answered then Some(sent.receiptOf(claim)) else None;
    ReceiptKeeps(sent, claim, outcome, receipt);
    ThroughKeeps(sent, ReceiptCall(sent, claim, outcome, receipt), receiptCall);
  }

  lemma DeliveringKeeps(s: State, current: bool, claimCall: Call, expires: bool, send: Call, receiptCall: Call)
    requires Inv(s)
    ensures Inv(Delivering(s, current, claimCall, expires, send, receiptCall).0)
  {
    hide Inv, Reporting;
    ClaimKeeps(s, current);
    ThroughKeeps(s, ClaimCall(s, current), claimCall);
    var claimed := Through(s, ClaimCall(s, current), claimCall);
    ExpireKeeps(claimed);
    var now := if expires then Expire(claimed) else claimed;
    if claimCall == Answered && s.p.status == Pending && current {
      FreshIsUnsent(s);
      ReportingKeeps(now, s.nextClaim, send, receiptCall);
    }
  }

  lemma RecoveringKeeps(s: State, claim: Claim, expires: bool, statusCall: Call, receiptCall: Call)
    requires Inv(s)
    ensures Inv(Recovering(s, claim, expires, statusCall, receiptCall).0)
  {
    hide Inv;
    ExpireKeeps(s);
    var now := if expires then Expire(s) else s;
    CrashKeeps(now);
    if claim in now.sent {
      SentIsCalled(now, claim);
      var after := ReceiptCall(now, claim, Delivered, Some(now.receiptOf(claim)));
      ReceiptKeeps(now, claim, Delivered, Some(now.receiptOf(claim)));
      ThroughKeeps(now, after, receiptCall);
    }
  }

  lemma {:induction false} RunKeeps(s: State, ops: seq<Op>)
    requires Inv(s)
    ensures Inv(Run(s, ops))
  {
    hide Inv, Delivering, Recovering;
    if ops == [] {
    } else {
      RunKeeps(s, ops[..|ops| - 1]);
      var m := Run(s, ops[..|ops| - 1]);
      match ops[|ops| - 1] {
        case DeliverOp(current, claimCall, expires, send, receiptCall) =>
          DeliveringKeeps(m, current, claimCall, expires, send, receiptCall);
        case RecoverOp(claim, expires, statusCall, receiptCall) =>
          RecoveringKeeps(m, claim, expires, statusCall, receiptCall);
      }
    }
  }

  /** However often a presentation is delivered and recovered, and whatever fails on the way: it is
      claimed at most once and sent at most once, and when it counts as delivered it has been sent
      and carries the receipt of that send. */
  lemma SentAtMostOnce(receiptOf: Claim -> string, nextClaim: Claim, ops: seq<Op>)
    ensures var s := Run(Fresh(receiptOf, nextClaim), ops);
            s.claims <= 1 && |s.calls| <= 1
            && (s.p.status == Delivered ==>
                  |s.calls| == 1 && s.p.claim == Some(s.calls[0]) && s.p.receipt == Some(s.receiptOf(s.calls[0])))
  {
    hide Run;
    assert Inv(Fresh(receiptOf, nextClaim));
    RunKeeps(Fresh(receiptOf, nextClaim), ops);
  }
}
