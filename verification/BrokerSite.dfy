/** The client, the broker process and the recovering operator, as they change the store and the broker's files. */
module BrokerSite {
  import opened Basics
  import opened Broker

  /** Where the executing process dies, if it does. */
  datatype Death = Survives | BeforeLaunch | BeforeJournal

  /** What one delivery of a request to `perform` does. */
  function Performed(s: State, request: Request, outcome: Outcome, death: Death): State
    requires request in s.wire
  {
    var entered := Apply(s, Enter(request));
    if s.holder.Some? || s.tombstone.Some? || s.journal.Some? then entered
    else if death == BeforeLaunch then Apply(entered, BrokerDies)
    else
      var launched := Apply(entered, Launch);
      if death == BeforeJournal then Apply(launched, BrokerDies) else Apply(launched, WriteJournal(outcome))
  }

  /** What a call of `recover` does, given whether the container's absence can be proved. Of an earlier call
      it has no evidence, and an operation that is not started or still running is left as it is. */
  function Recovered(s: State, absent: bool): (State, bool) {
    Reconciled(Apply(s, OperatorDies), absent)
  }

  function Reconciled(s: State, absent: bool): (State, bool) {
    if s.status != Started || s.holder.Some? then (s, false)
    else if Readable(s) then
      if s.journal.value.outcome.uncertain && !absent then (Apply(s, Accept), false)
      else (Apply(Apply(s, AcceptForRecovery(absent)), CommitRecovery), true)
    else if !s.docker || s.journal.Some? then (s, false)
    else
      var proved := Apply(Apply(s, WriteTombstone), ProveAbsent(absent));
      if absent then (Apply(proved, CommitRecovery), true) else (proved, false)
  }

  lemma PerformedShape(s: State, request: Request, outcome: Outcome, death: Death)
    requires request in s.wire
    ensures var entered := s.(wire := s.wire - {request});
            Performed(s, request, outcome, death) ==
            if s.holder.Some? || s.tombstone.Some? || s.journal.Some? then entered
            else if death == BeforeLaunch then entered.(holder := None)
            else if death == BeforeJournal then entered.(holder := None, launches := s.launches + 1)
            else entered.(holder := None, launches := s.launches + 1, journal := Some(Envelope(request, outcome)))
  {
  }

  function Closed(s: State): State {
    s.(status := Done, generation := s.generation + 1, recovered := true, evidence := false)
  }

  lemma RecoveredShape(s: State, absent: bool)
    ensures var t := s.(evidence := false);
            Recovered(s, absent) ==
            if s.status != Started || s.holder.Some? then (t, false)
            else if Readable(s) then
              var u := t.(accepted := s.accepted + {s.journal.value});
              if s.journal.value.outcome.uncertain && !absent then (u, false) else (Closed(u), true)
            else if !s.docker || s.journal.Some? then (t, false)
            else
              var u := t.(tombstone := Some(s.generation));
              if absent then (Closed(u), true) else (u, false)
  {
  }

  class Site {
    const docker: bool
    var status: Status
    var generation: nat
    var requests: map<nat, Request>
    var journal: Option<Envelope>
    var tombstone: Option<nat>
    var unsent: Option<Request>
    var wire: set<Request>
    var holder: Option<Holder>
    var evidence: bool
    var launches: nat
    var accepted: set<Envelope>
    var recovered: bool

    function Here(): State
      reads this
    {
      State(docker, status, generation, requests, journal, tombstone, unsent, wire, holder, evidence, launches, accepted, recovered)
    }

    constructor (docker: bool)
      ensures Here() == Start(docker)
    {
      this.docker := docker;
      status, generation, requests := Absent, 1, map[];
      journal, tombstone, unsent, wire, holder := None, None, None, {}, None;
      evidence, launches, accepted, recovered := false, 0, {}, false;
    }

    /** The client's first call for a generation makes one durable row and sends one message; every
        later call only asks for the retained result. */
    method RunClient(nonce: nat, dies: bool) returns (sent: bool, result: Option<Envelope>)
      requires Here().unsent == None
      modifies this
      ensures sent <==> old(Enabled(Here(), InsertRequest(nonce))) && !dies
      ensures old(Enabled(Here(), InsertRequest(nonce))) ==>
                Here() == Apply(Apply(old(Here()), InsertRequest(nonce)), if dies then ClientDies else Send)
      ensures old(!Enabled(Here(), InsertRequest(nonce))) ==>
                && (result.Some? <==> old(Readable(Here())) && !dies)
                && Here() == if result.Some? then Apply(old(Here()), Accept) else old(Here())
      ensures result.Some? <==>
                && !dies && old(status == Started && generation in requests && holder == None && journal.Some?)
                && old(journal).value.request == old(requests)[old(generation)]
      ensures result.Some? ==> result == old(journal) && result.value in accepted && generation in requests && result.value.request == requests[generation]
      ensures sent ==> var request := Request(generation, nonce); requests == old(requests)[generation := request] && wire == old(wire) + {request}
    {
      sent, result := false, None;
      if status != Started { return; }
      if generation in requests {
        if dies || holder.Some? || journal == None || journal.value.request != requests[generation] { return; }
        result := journal;
        accepted := accepted + {journal.value};
        return;
      }
      var request := Request(generation, nonce);
      requests := requests[generation := request];
      if dies { return; }
      wire := wire + {request};
      sent := true;
    }

    /** Under the lock: a tombstone refuses, a journal answers, and otherwise the work runs and is journaled. */
    method Perform(request: Request, outcome: Outcome, death: Death) returns (reply: Option<Envelope>)
      requires request in wire
      modifies this
      ensures Here() == Performed(old(Here()), request, outcome, death)
      ensures reply.Some? <==>
                && old(holder == None && tombstone == None)
                && (if old(journal).Some? then old(journal).value.request == request else death == Survives)
      ensures reply.Some? ==> journal == reply && reply == if old(journal).Some? then old(journal) else Some(Envelope(request, outcome))
      ensures old(journal).Some? ==> journal == old(journal) && launches == old(launches)
    {
      PerformedShape(Here(), request, outcome, death);
      hide Performed;
      wire, reply := wire - {request}, None;
      if holder.Some? || tombstone.Some? { return; }
      if journal.Some? { return if journal.value.request == request then journal else None; }
      holder := Some(Performing(request, false));
      if death == BeforeLaunch { holder := None; return; }
      launches, holder := launches + 1, Some(Performing(request, true));
      if death == BeforeJournal { holder := None; return; }
      journal, holder := Some(Envelope(request, outcome)), None;
      reply := journal;
    }

    /** The retained result, with the proof of absence that an uncertain outcome still needs. */
    method Result(absent: bool) returns (ok: bool)
      modifies this
      ensures ok <==> old(Readable(Here()) && (journal.value.outcome.uncertain ==> absent))
      ensures Here() == if ok then Apply(old(Here()), AcceptForRecovery(absent))
                        else if old(Readable(Here())) then Apply(old(Here()), Accept)
                        else old(Here())
      ensures ok ==> journal == old(journal) && journal.Some? && accepted == old(accepted) + {journal.value}
      ensures Here() == old(Here()).(accepted := if old(Readable(Here())) then old(accepted) + {old(journal).value} else old(accepted),
                                     evidence := ok || old(evidence))
    {
      if status != Started || generation !in requests || holder.Some? || journal == None { return false; }
      if journal.value.request != requests[generation] { return false; }
      accepted := accepted + {journal.value};
      ok := !journal.value.outcome.uncertain || absent;
      if ok { evidence := true; }
    }

    /** A tombstone first, then the proof that the container is gone. */
    method Retire(absent: bool) returns (ok: bool)
      requires status == Started
      modifies this
      ensures ok <==> old(docker && holder == None && journal == None) && absent
      ensures Here() == if old(docker && holder == None && journal == None)
                        then Apply(Apply(old(Here()), WriteTombstone), ProveAbsent(absent))
                        else old(Here())
      ensures Here() == old(Here()).(tombstone := if old(docker && holder == None && journal == None) then Some(old(generation)) else old(tombstone),
                                     evidence := ok || old(evidence))
    {
      if !docker || holder.Some? || journal.Some? { return false; }
      tombstone, holder := Some(generation), Some(Retiring);
      holder := None;
      if absent { evidence := true; }
      ok := absent;
    }

    method Commit()
      requires status == Started && evidence
      modifies this
      ensures Here() == Apply(old(Here()), CommitRecovery) && Here() == Closed(old(Here()))
    {
      status, generation, recovered, evidence := Done, generation + 1, true, false;
    }

    /** Recovery: take the retained result if there is one, else fence the operation before proving it stopped. */
    method Recover(absent: bool) returns (ok: bool)
      modifies this
      ensures Here() == Recovered(old(Here()), absent).0
      ensures ok == Recovered(old(Here()), absent).1
      ensures ok <==>
                && old(status == Started && holder == None)
                && (if old(generation in requests && journal.Some?) && old(journal).value.request == old(requests)[old(generation)]
                    then !old(journal).value.outcome.uncertain || absent
                    else docker && old(journal) == None && absent)
      ensures ok ==>
                && old(status) == Started && old(holder) == None
                && status == Done && generation == old(generation) + 1 && recovered
                && (absent || (journal.Some? && !journal.value.outcome.uncertain))
                && (journal.Some? ==> journal == old(journal) && journal.value in accepted)
                && (journal.None? ==> tombstone == Some(old(generation)))
      ensures !ok ==> status == old(status) && generation == old(generation)
    {
      RecoveredShape(Here(), absent);
      hide Recovered, Apply, Enabled;
      evidence := false;
      if status != Started { return false; }
      ok := Result(absent);
      if !ok && !(generation in requests && journal.Some? && journal.value.request == requests[generation]) {
        ok := Retire(absent);
      }
      if ok { Commit(); }
    }
  }
}
