/** `perform` without the client's durable row: any request may reach it, any number of times. */
module BrokerAlone {
  import opened Basics
  import opened Broker

  /** A delivery, from anywhere, or a step of the broker's own. */
  datatype Event = Deliver(request: Request) | Does(action: Action)

  predicate OfBroker(a: Action) {
    a.Enter? || a.LoseMessage? || a.Launch? || a.WriteJournal? || a.BrokerDies? || a.WriteTombstone? || a.ProveAbsent?
  }

  predicate AloneNext(s: State, e: Event, s': State) {
    match e
    case Deliver(request) => s' == s.(wire := s.wire + {request})
    case Does(a) => OfBroker(a) && Next(s, a, s')
  }

  /** Nothing is launched, journaled or retired at first; the rest of the first state is arbitrary. */
  predicate Unlaunched(s: State) {
    s.launches == 0 && s.journal == None && s.tombstone == None && s.holder == None
  }

  ghost predicate AloneRun(ss: seq<State>, es: seq<Event>) {
    && |ss| == |es| + 1
    && Unlaunched(ss[0])
    && forall i :: 0 <= i < |es| ==> AloneNext(ss[i], es[i], ss[i + 1])
  }

  /** The broker dies between the execution and the journal. */
  predicate DiesUnjournaled(s: State, e: Event) {
    e == Does(BrokerDies) && s.holder.Some? && s.holder.value.Performing? && s.holder.value.launched
  }

  function Deaths(ss: seq<State>, es: seq<Event>, i: nat): nat
    requires i <= |es| < |ss|
  {
    if i == 0 then 0 else Deaths(ss, es, i - 1) + if DiesUnjournaled(ss[i - 1], es[i - 1]) then 1 else 0
  }

  predicate Door(s: State) {
    InsideDoor(s) ==> s.journal == None && s.tombstone == None
  }

  function Seen(s: State): nat { if LaunchSeen(s) then 1 else 0 }

  lemma StepCounted(s: State, e: Event, s': State)
    requires Door(s) && AloneNext(s, e, s')
    ensures Door(s')
    ensures s'.launches + Seen(s) == s.launches + Seen(s') + if DiesUnjournaled(s, e) then 1 else 0
    ensures s.journal.Some? || s.tombstone.Some? ==> Fenced(s') && s'.launches == s.launches
    ensures s.journal.Some? ==> s'.journal == s.journal
  {
    if e.Does? {
      match e.action {
        case Enter(_) =>
        case Launch =>
        case WriteJournal(_) =>
        case BrokerDies =>
        case _ =>
      }
    }
  }

  /** Over every run, the work has run once for each death before a journal, and once more if it is journaled or
      still running. */
  lemma {:induction false} LaunchesCounted(ss: seq<State>, es: seq<Event>, i: nat)
    requires AloneRun(ss, es) && i <= |es|
    ensures Door(ss[i])
    ensures ss[i].launches == Deaths(ss, es, i) + Seen(ss[i])
  {
    if i > 0 {
      LaunchesCounted(ss, es, i - 1);
      assert AloneNext(ss[i - 1], es[i - 1], ss[i]);
      hide AloneNext, Door, Seen, DiesUnjournaled;
      StepCounted(ss[i - 1], es[i - 1], ss[i]);
    }
  }

  lemma {:induction false} DeathFound(ss: seq<State>, es: seq<Event>, i: nat)
    requires i <= |es| < |ss| && Deaths(ss, es, i) > 0
    ensures exists k :: 0 <= k < i && DiesUnjournaled(ss[k], es[k])
  {
    if !DiesUnjournaled(ss[i - 1], es[i - 1]) { DeathFound(ss, es, i - 1); }
  }

  lemma {:induction false} DeathsGrow(ss: seq<State>, es: seq<Event>, k: nat, i: nat)
    requires k < i <= |es| < |ss| && DiesUnjournaled(ss[k], es[k])
    ensures Deaths(ss, es, i) > 0
    decreases i
  {
    if k < i - 1 { DeathsGrow(ss, es, k, i - 1); }
  }

  lemma {:induction false} LaunchesGrow(ss: seq<State>, es: seq<Event>, i: nat, k: nat)
    requires AloneRun(ss, es) && i <= k <= |es|
    ensures ss[i].launches <= ss[k].launches
    decreases k
  {
    if i < k {
      LaunchesGrow(ss, es, i, k - 1);
      assert AloneNext(ss[k - 1], es[k - 1], ss[k]);
    }
  }

  /** At event `m` the work is launched, after the launch of an earlier delivery died unjournaled at event `k`. */
  predicate Relaunches(ss: seq<State>, es: seq<Event>, k: nat, m: nat)
    requires |es| < |ss|
  {
    && k < m < |es|
    && DiesUnjournaled(ss[k], es[k])
    && es[m] == Does(Launch)
    && ss[m].journal == None && ss[m].tombstone == None
  }

  /** Exactly when the work runs a second time: an earlier launch died before its journal, and nothing was retired
      until the next one. */
  lemma {:induction false} SecondLaunchIff(ss: seq<State>, es: seq<Event>, i: nat)
    requires AloneRun(ss, es) && i <= |es|
    ensures ss[i].launches >= 2 <==> exists k, m :: 0 <= k < m < i && Relaunches(ss, es, k, m)
  {
    if ss[i].launches >= 2 {
      var m := SecondLaunch(ss, es, i);
      LaunchesCounted(ss, es, m);
      assert AloneNext(ss[m], es[m], ss[m + 1]);
      DeathFound(ss, es, m);
      var k :| 0 <= k < m && DiesUnjournaled(ss[k], es[k]);
      assert Relaunches(ss, es, k, m);
    }
    if k, m :| 0 <= k < m < i && Relaunches(ss, es, k, m) {
      LaunchesCounted(ss, es, m);
      DeathsGrow(ss, es, k, m);
      assert AloneNext(ss[m], es[m], ss[m + 1]);
      LaunchesGrow(ss, es, m + 1, i);
    }
  }

  lemma {:induction false} SecondLaunch(ss: seq<State>, es: seq<Event>, i: nat) returns (m: nat)
    requires AloneRun(ss, es) && i <= |es| && ss[i].launches >= 2
    ensures m < i && es[m] == Does(Launch) && ss[m].launches >= 1
  {
    assert i > 0;
    assert AloneNext(ss[i - 1], es[i - 1], ss[i]);
    if es[i - 1] == Does(Launch) {
      m := i - 1;
    } else {
      m := SecondLaunch(ss, es, i - 1);
    }
  }

  /** Once an outcome is journaled or the operation retired, no delivery launches it again. */
  lemma {:induction false} NoneAfterFate(ss: seq<State>, es: seq<Event>, i: nat, k: nat)
    requires AloneRun(ss, es) && i <= k <= |es| && (ss[i].journal.Some? || ss[i].tombstone.Some?)
    ensures Fenced(ss[k]) && ss[k].launches == ss[i].launches
    ensures ss[i].journal.Some? ==> ss[k].journal == ss[i].journal
    decreases k
  {
    LaunchesCounted(ss, es, i);
    if i < k {
      NoneAfterFate(ss, es, i, k - 1);
      LaunchesCounted(ss, es, k - 1);
      assert AloneNext(ss[k - 1], es[k - 1], ss[k]);
      hide AloneNext, Door, InsideDoor;
      StepCounted(ss[k - 1], es[k - 1], ss[k]);
    }
  }

  /** A request that reaches the free lock again runs again exactly when nothing was journaled or retired. */
  lemma RedeliveryRelaunches(s: State, request: Request)
    requires request in s.wire && s.holder == None
    ensures Enabled(Apply(s, Enter(request)), Launch) <==> s.journal == None && s.tombstone == None
  {
  }

  /** How a run may go on from a state. */
  ghost predicate Continues(s: State, ts: seq<State>, es: seq<Event>) {
    && |ts| == |es| + 1
    && ts[0] == s
    && forall i :: 0 <= i < |es| ==> AloneNext(ts[i], es[i], ts[i + 1])
  }

  lemma {:induction false} FatedContinues(s: State, ts: seq<State>, es: seq<Event>, k: nat)
    requires Continues(s, ts, es) && Fenced(s) && k <= |es|
    ensures Fenced(ts[k]) && ts[k].launches == s.launches
  {
    if k > 0 {
      FatedContinues(s, ts, es, k - 1);
      assert AloneNext(ts[k - 1], es[k - 1], ts[k]);
      StepCounted(ts[k - 1], es[k - 1], ts[k]);
    }
  }

  lemma Relaunched(s: State, request: Request) returns (ts: seq<State>, es: seq<Event>)
    requires s.holder == None && s.journal == None && s.tombstone == None
    ensures Continues(s, ts, es) && ts[|es|].launches == s.launches + 1
  {
    var sent := s.(wire := s.wire + {request});
    var entered := Apply(sent, Enter(request));
    es := [Deliver(request), Does(Enter(request)), Does(Launch)];
    ts := [s, sent, entered, Apply(entered, Launch)];
  }

  /** From any state with nothing running, the work can run again exactly when nothing was journaled or retired: a
      test that can be made before a redelivery. */
  lemma RunsAgainIff(s: State)
    requires s.holder == None
    ensures (exists ts: seq<State>, es: seq<Event> :: Continues(s, ts, es) && ts[|es|].launches > s.launches) <==> s.journal == None && s.tombstone == None
  {
    if s.journal == None && s.tombstone == None {
      var ts, es := Relaunched(s, Request(1, 1));
      assert Continues(s, ts, es) && ts[|es|].launches > s.launches;
    } else {
      forall ts: seq<State>, es: seq<Event> | Continues(s, ts, es) ensures ts[|es|].launches <= s.launches { FatedContinues(s, ts, es, |es|); }
    }
  }

  /** One request delivered twice, with a death before the journal in between, runs twice: only the client's
      durable row, which sends a request once, keeps the second delivery away. */
  lemma PerformAloneRunsTwice(request: Request) returns (ss: seq<State>, es: seq<Event>)
    ensures AloneRun(ss, es) && ss[|es|].launches == 2
    ensures forall i :: 0 <= i < |es| && es[i].Deliver? ==> es[i].request == request
  {
    var s0 := Start(true);
    var sent := s0.(wire := {request});
    var again := s0.(launches := 1);
    var late := sent.(launches := 1);
    es := [Deliver(request), Does(Enter(request)), Does(Launch), Does(BrokerDies),
           Deliver(request), Does(Enter(request)), Does(Launch)];
    ss := [s0, sent, s0.(holder := Some(Performing(request, false))), again.(holder := Some(Performing(request, true))), again,
           late, again.(holder := Some(Performing(request, false))), again.(launches := 2, holder := Some(Performing(request, true)))];
  }
}
