/** Fenced execution of one operation: a client with a durable request row, a broker with a lock, a
    journal and a tombstone, and an operator who may recover the operation after either has died. */
module Broker {
  import opened Basics

  datatype Request = Request(generation: nat, nonce: nat)

  /** `uncertain` stands for the two failures that leave the container's end unproved. */
  datatype Outcome = Outcome(value: nat, uncertain: bool)

  datatype Envelope = Envelope(request: Request, outcome: Outcome)

  datatype Status = Absent | Started | Done

  /** Who holds the operation's file lock. The lock is released when its holder dies. */
  datatype Holder = Performing(request: Request, launched: bool) | Retiring

  datatype State = State(
    docker: bool,
    // Durable, in the workflow store.
    status: Status,
    generation: nat,
    requests: map<nat, Request>,
    // Durable, in the broker's directory.
    journal: Option<Envelope>,
    tombstone: Option<nat>,
    // Volatile: the client's unsent request, messages and subprocesses not yet arrived, the lock.
    unsent: Option<Request>,
    wire: set<Request>,
    holder: Option<Holder>,
    // The recovering operator's evidence in hand, lost if the operator's process dies.
    evidence: bool,
    // History: how often the operation was started on a container, and what was accepted.
    launches: nat,
    accepted: set<Envelope>,
    recovered: bool)

  datatype Action =
    | StartOperation
    | InsertRequest(nonce: nat)
    | Send
    | ClientDies
    | OperatorDies
    | LoseMessage(request: Request)
    | Enter(request: Request)
    | Launch
    | WriteJournal(outcome: Outcome)
    | BrokerDies
    | Accept
    | AcceptForRecovery(absent: bool)
    | WriteTombstone
    | ProveAbsent(absent: bool)
    | FailBeforeRequest
    | FailUnsent
    | FailAfterResult
    | CommitCompletion
    | CommitRecovery

  const START_LOCAL := State(false, Absent, 1, map[], None, None, None, {}, None, false, 0, {}, false)

  function Start(docker: bool): State { START_LOCAL.(docker := docker) }

  /** What `result` returns: the journal, read under the lock and bound to this very request. */
  predicate Readable(s: State) {
    && s.status == Started
    && s.generation in s.requests
    && s.holder == None
    && s.journal.Some?
    && s.journal.value.request == s.requests[s.generation]
  }

  predicate Enabled(s: State, a: Action) {
    match a
    case StartOperation => s.status == Absent
    case InsertRequest(nonce) => s.status == Started && s.generation !in s.requests
    case Send => s.unsent.Some?
    case ClientDies => true
    case OperatorDies => true
    case LoseMessage(request) => request in s.wire
    case Enter(request) => request in s.wire
    case Launch => s.holder.Some? && s.holder.value.Performing? && !s.holder.value.launched
    case WriteJournal(outcome) => s.holder.Some? && s.holder.value.Performing? && s.holder.value.launched
    case BrokerDies => s.holder.Some?
    case Accept => Readable(s)
    case AcceptForRecovery(absent) => Readable(s) && (s.journal.value.outcome.uncertain ==> absent)
    case WriteTombstone => s.status == Started && s.docker && s.holder == None && s.journal == None
    case ProveAbsent(absent) => s.holder == Some(Retiring)
    case FailBeforeRequest => s.status == Started && s.generation !in s.requests
    // The row is there, but the process that would carry the request cannot be started.
    case FailUnsent => s.status == Started && s.unsent.Some?
    // The broker has finished, but what it retained cannot be taken over.
    case FailAfterResult => s.status == Started && s.journal.Some?
    case CommitCompletion => Readable(s) && !s.journal.value.outcome.uncertain
    case CommitRecovery => s.status == Started && s.evidence
  }

  function Apply(s: State, a: Action): State
    requires Enabled(s, a)
  {
    match a
    case StartOperation => s.(status := Started)
    case InsertRequest(nonce) =>
      var request := Request(s.generation, nonce);
      s.(requests := s.requests[s.generation := request], unsent := Some(request))
    case Send => s.(wire := s.wire + {s.unsent.value}, unsent := None)
    case ClientDies => s.(unsent := None)
    case OperatorDies => s.(evidence := false)
    case LoseMessage(request) => s.(wire := s.wire - {request})
    case Enter(request) =>
      // A busy lock, a tombstone or a journal turns the caller away or answers from what is retained.
      var s' := s.(wire := s.wire - {request});
      if s.holder.Some? || s.tombstone.Some? || s.journal.Some? then s'
      else s'.(holder := Some(Performing(request, false)))
    case Launch => s.(holder := Some(Performing(s.holder.value.request, true)), launches := s.launches + 1)
    case WriteJournal(outcome) => s.(journal := Some(Envelope(s.holder.value.request, outcome)), holder := None)
    case BrokerDies => s.(holder := None)
    case Accept => s.(accepted := s.accepted + {s.journal.value})
    case AcceptForRecovery(absent) => s.(accepted := s.accepted + {s.journal.value}, evidence := true)
    case WriteTombstone => s.(tombstone := Some(s.generation), holder := Some(Retiring))
    case ProveAbsent(absent) => s.(holder := None, evidence := s.evidence || absent)
    case FailBeforeRequest => s.(status := Done)
    case FailUnsent => s.(status := Done, unsent := None)
    case FailAfterResult => s.(status := Done)
    case CommitCompletion => s.(status := Done, accepted := s.accepted + {s.journal.value})
    case CommitRecovery => s.(status := Done, generation := s.generation + 1, recovered := true, evidence := false)
  }

  predicate Next(s: State, a: Action, s': State) {
    Enabled(s, a) && s' == Apply(s, a)
  }

  ghost predicate Run(ss: seq<State>, acts: seq<Action>) {
    && |ss| == |acts| + 1
    && (exists docker :: ss[0] == Start(docker))
    && forall i :: 0 <= i < |acts| ==> Next(ss[i], acts[i], ss[i + 1])
  }

  // ---- The one ticket ----

  /** Where the permission to launch is: with the client, in transit, or with the broker. */
  function Tickets(s: State): nat {
    (if s.unsent.Some? then 1 else 0)
    + |s.wire|
    + (if s.holder.Some? && s.holder.value.Performing? && !s.holder.value.launched then 1 else 0)
  }

  /** Each durable request row buys one ticket, and each launch spends it for good. */
  predicate Paid(s: State) {
    Tickets(s) + s.launches <= |s.requests|
  }

  predicate InsideDoor(s: State) {
    s.holder.Some? && s.holder.value.Performing?
  }

  /** Nothing can pass the broker's door any more, and nobody is inside it. */
  predicate Fenced(s: State) {
    (s.journal.Some? || s.tombstone.Some?) && !InsideDoor(s)
  }

  /** No launch can come: nothing is unsent, in transit or inside the door. */
  predicate Idle(s: State) {
    s.unsent == None && s.wire == {} && !InsideDoor(s)
  }

  predicate LaunchSeen(s: State) {
    s.journal.Some? || (s.holder.Some? && s.holder.value.Performing? && s.holder.value.launched)
  }

  ghost predicate Bound(s: State) {
    && s.requests.Keys <= {1}
    && (s.status == Absent ==> s.requests == map[] && s.tombstone == None)
    && (s.status != Done ==> s.generation == 1)
    && (forall r :: r in s.wire ==> 1 in s.requests && r == s.requests[1])
    && (s.unsent.Some? ==> 1 in s.requests && s.unsent.value == s.requests[1])
  }

  ghost predicate Locked(s: State) {
    && (InsideDoor(s) ==> && 1 in s.requests
                          && s.holder.value.request == s.requests[1]
                          && s.journal == None
                          && s.tombstone == None)
    && (s.holder == Some(Retiring) ==> s.tombstone.Some?)
    && (LaunchSeen(s) ==> s.launches >= 1)
    && (s.journal.Some? ==> 1 in s.requests && s.journal.value.request == s.requests[1] && s.tombstone == None)
  }

  ghost predicate Settled(s: State) {
    && (s.accepted == {} || (s.journal.Some? && s.accepted == {s.journal.value}))
    && (s.evidence ==> Fenced(s))
    && (s.status == Done ==> Fenced(s) || Idle(s))
    && (s.recovered ==> s.status == Done && (s.journal.Some? || s.tombstone.Some?))
  }

  ghost predicate Inv(s: State) {
    Paid(s) && Bound(s) && Locked(s) && Settled(s)
  }

  lemma OneRequest(s: State)
    requires Bound(s)
    ensures |s.requests| <= 1 && (|s.requests| == 0 ==> s.requests == map[])
  {
    var k := s.requests.Keys;
    assert k == {} || k == {1} by { if k != {} { var x :| x in k; assert x == 1; } }
    assert |k| == |s.requests|;
  }

  lemma NoRequestNoTicket(s: State)
    requires Inv(s) && s.requests == map[]
    ensures Idle(s) && s.launches == 0 && s.journal == None
  {
  }

  /** A request that was never sent has bought no launch, and none is under way. */
  lemma UnsentNotLaunched(s: State)
    requires Inv(s) && s.unsent.Some?
    ensures s.wire == {} && !InsideDoor(s) && s.launches == 0
  {
    OneRequest(s);
  }

  lemma InsertKeepsInv(s: State, nonce: nat)
    requires Inv(s) && Enabled(s, InsertRequest(nonce))
    ensures Inv(Apply(s, InsertRequest(nonce)))
  {
    assert s.requests.Keys == {};
    NoRequestNoTicket(s);
  }

  lemma WireKeepsInv(s: State, a: Action)
    requires Inv(s) && Enabled(s, a) && (a.Send? || a.LoseMessage? || a.Enter?)
    ensures Inv(Apply(s, a))
  {
    if a.Send? {
      assert |Apply(s, a).wire| <= |s.wire| + 1;
    } else {
      assert |s.wire - {a.request}| == |s.wire| - 1;
    }
  }

  lemma BrokerKeepsInv(s: State, a: Action)
    requires Inv(s) && Enabled(s, a)
    requires a.Launch? || a.WriteJournal? || a.BrokerDies? || a.WriteTombstone? || a.ProveAbsent?
    ensures Inv(Apply(s, a))
  {
  }

  lemma ClientKeepsInv(s: State, a: Action)
    requires Inv(s) && Enabled(s, a)
    requires a.StartOperation? || a.ClientDies? || a.Accept? || a.CommitCompletion?
    ensures Inv(Apply(s, a))
  {
  }

  lemma FailureKeepsInv(s: State, a: Action)
    requires Inv(s) && Enabled(s, a) && (a.FailBeforeRequest? || a.FailUnsent? || a.FailAfterResult?)
    ensures Inv(Apply(s, a))
  {
    if a.FailBeforeRequest? {
      assert s.requests.Keys == {};
      NoRequestNoTicket(s);
    }
    if a.FailUnsent? { UnsentNotLaunched(s); }
  }

  lemma OperatorKeepsInv(s: State, a: Action)
    requires Inv(s) && Enabled(s, a) && (a.OperatorDies? || a.AcceptForRecovery? || a.CommitRecovery?)
    ensures Inv(Apply(s, a))
  {
  }

  lemma StepKeepsInv(s: State, a: Action, s': State)
    requires Inv(s) && Next(s, a, s')
    ensures Inv(s')
  {
    hide Inv;
    if a.InsertRequest? {
      InsertKeepsInv(s, a.nonce);
    } else if a.Send? || a.LoseMessage? || a.Enter? {
      WireKeepsInv(s, a);
    } else if a.Launch? || a.WriteJournal? || a.BrokerDies? || a.WriteTombstone? || a.ProveAbsent? {
      BrokerKeepsInv(s, a);
    } else if a.FailBeforeRequest? || a.FailUnsent? || a.FailAfterResult? {
      FailureKeepsInv(s, a);
    } else if a.OperatorDies? || a.AcceptForRecovery? || a.CommitRecovery? {
      OperatorKeepsInv(s, a);
    } else {
      ClientKeepsInv(s, a);
    }
  }

  lemma {:induction false} RunKeepsInv(ss: seq<State>, acts: seq<Action>, i: nat)
    requires Run(ss, acts) && i <= |acts|
    ensures Inv(ss[i])
  {
    if i > 0 {
      RunKeepsInv(ss, acts, i - 1);
      StepKeepsInv(ss[i - 1], acts[i - 1], ss[i]);
    }
  }

  /** However clients, brokers and messages die or arrive late, the operation is launched at most once. */
  lemma LaunchedAtMostOnce(ss: seq<State>, acts: seq<Action>, i: nat)
    requires Run(ss, acts) && i <= |acts|
    ensures ss[i].launches <= 1
  {
    RunKeepsInv(ss, acts, i);
    OneRequest(ss[i]);
  }

  /** Whatever is accepted, by the client or in recovery, is the one journaled outcome. */
  lemma OneAcceptedOutcome(ss: seq<State>, acts: seq<Action>, i: nat, a: Envelope, b: Envelope)
    requires Run(ss, acts) && i <= |acts| && a in ss[i].accepted && b in ss[i].accepted
    ensures a == b && ss[i].journal == Some(a) && ss[i].launches == 1
  {
    RunKeepsInv(ss, acts, i);
    AcceptedWasLaunched(ss, acts, i);
    LaunchedAtMostOnce(ss, acts, i);
  }

  /** A journal is written only after a launch. */
  lemma AcceptedWasLaunched(ss: seq<State>, acts: seq<Action>, i: nat)
    requires Run(ss, acts) && i <= |acts|
    ensures LaunchSeen(ss[i]) ==> ss[i].launches >= 1
    ensures ss[i].accepted != {} ==> ss[i].journal.Some? && ss[i].launches >= 1
  {
    RunKeepsInv(ss, acts, i);
  }

  /** What a client or an operator receives is the one thing that is ever accepted. */
  lemma ReceivedIsAccepted(ss: seq<State>, acts: seq<Action>, i: nat)
    requires Run(ss, acts) && i < |acts| && (acts[i].Accept? || acts[i].AcceptForRecovery? || acts[i].CommitCompletion?)
    ensures ss[i].journal.Some? && ss[i + 1].accepted == {ss[i].journal.value} && ss[i + 1].journal == ss[i].journal
  {
    RunKeepsInv(ss, acts, i);
    assert Next(ss[i], acts[i], ss[i + 1]);
  }

  /** An operator has seen the operation stopped: its container is absent, or it ended with a certain outcome. */
  predicate Proves(s: State, a: Action) {
    || a == ProveAbsent(true)
    || (a.AcceptForRecovery? && s.journal.Some? && (a.absent || !s.journal.value.outcome.uncertain))
  }

  lemma EvidenceStep(s: State, a: Action)
    requires Enabled(s, a) && Apply(s, a).evidence
    ensures Proves(s, a) || (s.evidence && !a.OperatorDies? && !a.CommitRecovery?)
  {
  }

  /** Evidence in hand was obtained by the same operator process, and not yet used. */
  lemma {:induction false} EvidenceWasProved(ss: seq<State>, acts: seq<Action>, i: nat) returns (k: nat)
    requires Run(ss, acts) && i <= |acts| && ss[i].evidence
    ensures k < i && Proves(ss[k], acts[k])
    ensures forall m :: k < m < i ==> !acts[m].OperatorDies? && !acts[m].CommitRecovery?
  {
    assert i > 0 && Next(ss[i - 1], acts[i - 1], ss[i]);
    EvidenceStep(ss[i - 1], acts[i - 1]);
    if Proves(ss[i - 1], acts[i - 1]) {
      k := i - 1;
    } else {
      k := EvidenceWasProved(ss, acts, i - 1);
    }
  }

  lemma RecoveredStep(s: State, a: Action)
    requires Enabled(s, a) && Apply(s, a).recovered
    ensures s.recovered || (a.CommitRecovery? && s.evidence)
  {
  }

  /** A recovered operation was proved stopped before its recovery was committed, by the operator who committed it. */
  lemma {:induction false} RecoveredWasProved(ss: seq<State>, acts: seq<Action>, i: nat) returns (k: nat, j: nat)
    requires Run(ss, acts) && i <= |acts| && ss[i].recovered
    ensures k < j < i && acts[j].CommitRecovery? && Proves(ss[k], acts[k])
    ensures forall m :: k < m < j ==> !acts[m].OperatorDies? && !acts[m].CommitRecovery?
  {
    assert i > 0 && Next(ss[i - 1], acts[i - 1], ss[i]);
    RecoveredStep(ss[i - 1], acts[i - 1]);
    if ss[i - 1].recovered {
      k, j := RecoveredWasProved(ss, acts, i - 1);
    } else {
      j := i - 1;
      k := EvidenceWasProved(ss, acts, i - 1);
    }
  }

  predicate Sealed(s: State) {
    Fenced(s) || (s.status == Done && Idle(s))
  }

  lemma SealHolds(s: State, a: Action, s': State)
    requires Inv(s) && Sealed(s) && Next(s, a, s')
    ensures Sealed(s') && s'.launches == s.launches
  {
  }

  /** Once the operation is done, by recovery or by completion, it is never launched again. */
  lemma {:induction false} DoneNeverLaunches(ss: seq<State>, acts: seq<Action>, i: nat, k: nat)
    requires Run(ss, acts) && i <= k <= |acts| && ss[i].status == Done
    ensures Sealed(ss[k]) && ss[k].launches == ss[i].launches
    decreases k - i
  {
    RunKeepsInv(ss, acts, k);
    if i < k {
      DoneNeverLaunches(ss, acts, i, k - 1);
      RunKeepsInv(ss, acts, k - 1);
      SealHolds(ss[k - 1], acts[k - 1], ss[k]);
    }
  }

  /** A recovery leaves the operation's one fate on disk: an envelope or a tombstone, never both. */
  lemma RecoveryLeavesOneFate(ss: seq<State>, acts: seq<Action>, i: nat)
    requires Run(ss, acts) && i <= |acts| && ss[i].recovered
    ensures ss[i].journal.Some? <==> ss[i].tombstone.None?
  {
    RunKeepsInv(ss, acts, i);
  }
}
