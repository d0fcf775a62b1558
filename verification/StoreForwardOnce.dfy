// When the protocol delivers an event exactly once.
module StoreForwardOnce {
  import opened Wrappers
  import opened Events
  import opened Fifo
  import opened StoreForward
  import opened StoreForwardProofs
  import opened StoreForwardTheorems
  import opened StoreForwardProgress
  import Receiver

  // ----- the steps that cost a second delivery ----------------------------------------

  // The broker has logged e for a caller that does not know it yet.
  predicate Awaiting(s: State, e: Event) {
    || (exists i :: 0 <= i < |s.procs| && s.procs[i].Sending? && s.procs[i].ev == e && Stored(s.procs[i].at))
    || (s.holder.Draining? && s.holder.i < |s.holder.evs| && s.holder.evs[s.holder.i] == e && Stored(s.holder.at))
  }

  // A drain has replayed e and not yet rewritten the file.
  predicate Replayed(s: State, e: Event) {
    || (s.holder.Draining? && s.holder.i <= |s.holder.evs| && e in s.holder.evs[..s.holder.i])
    || (s.holder.Writing? && s.holder.job.DrainJob? && s.holder.job.done <= |s.holder.job.all|
        && e in s.holder.job.all[..s.holder.job.done])
  }

  // A publish of e fails although the broker has logged it, the broker logs e after its
  // caller got no answer, the rewrite after a replay of e fails, or the agent dies in between.
  predicate Trouble(s: State, step: Step, e: Event) {
    match step
    case Network(who, m) => m.Store? && IsStray(s, who) && s.procs[who.i].ev == e
    case Return(who, r) =>
      && Request(s, who).Some? && Request(s, who).value.0 == e && Stored(Request(s, who).value.1)
      && Verdict(s.up, Request(s, who).value.1, r) == Some(false)
    case Buffer(WriteFails(_)) => s.holder.Writing? && Replayed(s, e)
    case Die => Awaiting(s, e) || Replayed(s, e)
    case _ => false
  }

  // Some step of the run is such a step.
  predicate Troubled(cfg: Config, s: State, run: seq<Step>, e: Event)
    decreases |run|
  {
    && run != []
    && (Trouble(s, run[0], e)
        || (Next(cfg, s, run[0]).Some? && Troubled(cfg, Next(cfg, s, run[0]).value, run[1..], e)))
  }

  ghost function Excess(s: State, e: Event): nat {
    s.phantom[e] + s.redelivered[e]
  }

  ghost predicate Counts(s: State, t: State, step: Step, e: Event) {
    Excess(t, e) >= Excess(s, e) && (Excess(t, e) > Excess(s, e) <==> Trouble(s, step, e))
  }

  lemma {:induction false} PendingCount(ps: seq<Proc>, e: Event)
    ensures All(Pending, ps)[e] > 0 <==>
      exists i :: 0 <= i < |ps| && ps[i].Sending? && ps[i].ev == e && Stored(ps[i].at)
  {
    if ps != [] {
      PendingCount(ps[1..], e);
      assert forall i :: 1 <= i < |ps| ==> ps[i] == ps[1..][i - 1];
      if i :| 0 <= i < |ps[1..]| && ps[1..][i].Sending? && ps[1..][i].ev == e && Stored(ps[1..][i].at) {
        assert ps[i + 1] == ps[1..][i];
      }
    }
  }

  lemma AwaitingCount(s: State, e: Event)
    ensures All(Pending, s.procs)[e] + PendingRequest(s.holder)[e] > 0 <==> Awaiting(s, e)
  {
    PendingCount(s.procs, e);
  }

  lemma Added(a: multiset<Event>, b: multiset<Event>, c: multiset<Event>, e: Event)
    ensures (a + b + c)[e] == a[e] + b[e] + c[e] && (a + b)[e] == a[e] + b[e]
  {
  }

  lemma CrashCounts(s: State, e: Event)
    ensures Counts(s, Crash(s), Die, e)
  {
    AwaitingCount(s, e);
    ReplayedCount(s, e);
    CrashExcess(s, e);
  }

  lemma CrashExcess(s: State, e: Event)
    ensures Excess(Crash(s), e)
            == Excess(s, e) + (All(Pending, s.procs)[e] + PendingRequest(s.holder)[e]) + Replaying(s.holder)[e]
  {
    Added(s.phantom, All(Pending, s.procs), PendingRequest(s.holder), e);
    Added(s.redelivered, Replaying(s.holder), multiset{}, e);
  }

  lemma ReplayedCount(s: State, e: Event)
    ensures Replaying(s.holder)[e] > 0 <==> Replayed(s, e)
  {
    ReplayingCount(s.holder, e);
  }

  lemma ReplayingCount(h: Holder, e: Event)
    ensures Replaying(h)[e] > 0 <==>
      || (h.Draining? && h.i <= |h.evs| && e in h.evs[..h.i])
      || (h.Writing? && h.job.DrainJob? && h.job.done <= |h.job.all| && e in h.job.all[..h.job.done])
  {
    match h
    case Draining(evs, i, _) =>
      if i <= |evs| {
        assert e in multiset(evs[..i]) <==> e in evs[..i];
      }
    case Writing(DrainJob(all, done), _, _) =>
      if done <= |all| {
        assert e in multiset(all[..done]) <==> e in all[..done];
      }
    case _ =>
  }

  lemma AbortCounts(s: State, left: bool, e: Event)
    requires s.holder.Writing? && JobFits(s.holder)
    ensures Counts(s, Abort(s, left), Buffer(WriteFails(left)), e)
  {
    ReplayingCount(s.holder, e);
    match s.holder.job
    case AddJob(_) =>
    case DrainJob(all, done) => assert (s.redelivered + multiset(all[..done]))[e] == s.redelivered[e] + multiset(all[..done])[e];
  }

  lemma DiskCounts(cfg: Config, s: State, d: DiskStep, e: Event)
    requires Disk(cfg, s, d).Some?
    ensures Counts(s, Disk(cfg, s, d).value, Buffer(d), e)
  {
    match d
    case WriteFails(left) => AbortCounts(s, left, e);
    case _ =>
  }

  lemma AdvanceCounts(cfg: Config, s: State, who: Who, m: Move, e: Event)
    requires Advance(cfg, s, who, m).Some?
    ensures Counts(s, Advance(cfg, s, who, m).value, Network(who, m), e)
  {
  }

  lemma LeaveCounts(s: State, who: Who, r: Return, e: Event)
    requires Leave(s, who, r).Some?
    ensures Counts(s, Leave(s, who, r).value, Return(who, r), e)
  {
    var (ev, at) := Request(s, who).value;
    var ok := Verdict(s.up, at, r).value;
    LeaveExcess(s, who, r, ev, at, ok, e);
    LeaveTrouble(s, who, r, e);
  }

  lemma LeaveTrouble(s: State, who: Who, r: Return, e: Event)
    requires Leave(s, who, r).Some?
    ensures var (ev, at) := Request(s, who).value;
            Trouble(s, Return(who, r), e) <==> Verdict(s.up, at, r) == Some(false) && Stored(at) && ev == e
  {
  }

  lemma LeaveExcess(s: State, who: Who, r: Return, ev: Event, at: Phase, ok: bool, e: Event)
    requires Leave(s, who, r).Some?
    requires Request(s, who) == Some((ev, at)) && Verdict(s.up, at, r) == Some(ok)
    ensures Excess(Leave(s, who, r).value, e) == Excess(s, e) + (if !ok && Stored(at) && ev == e then 1 else 0)
  {
    ResumeSame(s, who, ok);
    SettleCounts(Resume(s, who, ok), ev, at, ok, r, e);
  }

  lemma ResumeSame(s: State, who: Who, ok: bool)
    requires Request(s, who).Some? && !IsStray(s, who)
    ensures var t := Resume(s, who, ok); t.phantom == s.phantom && t.redelivered == s.redelivered
  {
  }

  lemma SettleCounts(t: State, ev: Event, at: Phase, ok: bool, r: Return, e: Event)
    ensures Excess(Settle(t, ev, at, ok, r), e) == Excess(t, e) + (if !ok && Stored(at) && ev == e then 1 else 0)
  {
    SettlePhantom(t.phantom, ev, e);
  }

  lemma StepCounts(cfg: Config, s: State, step: Step, e: Event)
    requires Next(cfg, s, step).Some?
    ensures Counts(s, Next(cfg, s, step).value, step, e)
  {
    match step
    case Network(who, m) => AdvanceCounts(cfg, s, who, m, e);
    case Return(who, r) => LeaveCounts(s, who, r, e);
    case Buffer(d) => DiskCounts(cfg, s, d, e);
    case Die => CrashCounts(s, e);
    case _ =>
  }

  // The counters of excess deliveries move in exactly these steps.
  lemma {:induction false} RunCounts(cfg: Config, s: State, run: seq<Step>, e: Event)
    requires Exec(cfg, s, run).Some?
    ensures var t := Exec(cfg, s, run).value;
            Excess(t, e) >= Excess(s, e) && (Excess(t, e) > Excess(s, e) <==> Troubled(cfg, s, run, e))
    decreases |run|
  {
    if run != [] {
      StepCounts(cfg, s, run[0], e);
      RunCounts(cfg, Next(cfg, s, run[0]).value, run[1..], e);
    }
  }

  // Nothing of e is left with a handler or in the file, and nothing of it was evicted or
  // lost.
  ghost predicate Settled(s: State, e: Event) {
    && InHandlers(s, e) == 0 && multiset(s.file)[e] == 0
    && TimesEvicted(s.removed, e) == 0 && s.lostAdd[e] == 0 && s.lostCrash[e] == 0
  }

  // An event that is settled has been delivered at least as often as it arrived; and
  // exactly as often if and only if no step of the run was one of the troubles.
  lemma DeliveredAsArrivedIff(cfg: Config, file: seq<Event>, run: seq<Step>, e: Event)
    requires Exec(cfg, Boot(file), run).Some? && Settled(Exec(cfg, Boot(file), run).value, e)
    ensures var s := Exec(cfg, Boot(file), run).value;
            && multiset(s.broker)[e] >= s.arrived[e]
            && (multiset(s.broker)[e] == s.arrived[e] <==> !Troubled(cfg, Boot(file), run, e))
  {
    BootKeeps(cfg, file, e);
    RunKeeps(cfg, Boot(file), run, e);
    NoLoss(cfg, file, run, e);
    DeliveryCount(cfg, file, run, e);
    FlightHasOwner(cfg, Exec(cfg, Boot(file), run).value, e);
    RunCounts(cfg, Boot(file), run, e);
  }

  // Exactly once, exactly when.
  lemma ExactlyOnceIff(cfg: Config, file: seq<Event>, run: seq<Step>, e: Event)
    requires Exec(cfg, Boot(file), run).Some? && Settled(Exec(cfg, Boot(file), run).value, e)
    requires Exec(cfg, Boot(file), run).value.arrived[e] == 1
    ensures multiset(Exec(cfg, Boot(file), run).value.broker)[e] == 1 <==> !Troubled(cfg, Boot(file), run, e)
  {
    DeliveredAsArrivedIff(cfg, file, run, e);
  }

  // ----- quiet runs -----------------------------------------------------------------------

  // An answer is a success exactly when the broker has the event.
  predicate Honest(at: Phase) {
    at.Reply? ==> (at.stored <==> Receiver.IsSuccess(at.code))
  }

  predicate Calm(s: State) {
    && (forall i :: 0 <= i < |s.procs| ==> !s.procs[i].Stray? && (s.procs[i].Sending? ==> Honest(s.procs[i].at)))
    && (s.holder.Draining? ==> Honest(s.holder.at))
  }

  lemma CalmAdvance(cfg: Config, s: State, who: Who, m: Move)
    requires Calm(s) && Advance(cfg, s, who, m).Some? && !m.ReceiverTimeout?
    ensures Calm(Advance(cfg, s, who, m).value)
  {
    assert Receiver.IsSuccess(Receiver.CHANGED);
    assert !Receiver.IsSuccess(Receiver.BAD_REQUEST) && !Receiver.IsSuccess(Receiver.SERVICE_UNAVAILABLE);
  }

  lemma CalmLeave(s: State, who: Who, r: Return)
    requires Calm(s) && Leave(s, who, r).Some? && !r.Unanswered?
    ensures Calm(Leave(s, who, r).value)
  {
  }

  lemma CalmStep(cfg: Config, s: State, step: Step, e: Event)
    requires Calm(s) && Next(cfg, s, step).Some? && Quiet(step)
    ensures Calm(Next(cfg, s, step).value) && !Trouble(s, step, e)
  {
    NoTrouble(s, step, e);
    match step
    case Network(who, m) => CalmAdvance(cfg, s, who, m);
    case Return(who, r) => CalmLeave(s, who, r);
    case Buffer(d) => CalmDisk(cfg, s, d);
    case _ =>
  }

  lemma CalmDisk(cfg: Config, s: State, d: DiskStep)
    requires Calm(s) && Disk(cfg, s, d).Some?
    ensures Calm(Disk(cfg, s, d).value)
  {
  }

  lemma NoTrouble(s: State, step: Step, e: Event)
    requires Calm(s) && Quiet(step)
    ensures !Trouble(s, step, e)
  {
    match step
    case Network(who, m) =>
    case Return(who, r) =>
      if Request(s, who).Some? && Stored(Request(s, who).value.1) {
        assert Honest(Request(s, who).value.1);
      }
    case _ =>
  }

  lemma {:induction false} CalmRun(cfg: Config, s: State, run: seq<Step>, e: Event)
    requires Calm(s) && Exec(cfg, s, run).Some? && QuietRun(run)
    ensures !Troubled(cfg, s, run, e)
    decreases |run|
  {
    if run != [] {
      CalmStep(cfg, s, run[0], e);
      CalmRun(cfg, Next(cfg, s, run[0]).value, run[1..], e);
    }
  }

  // Where no publish fails after it was sent, no rewrite fails and the agent does not
  // die, no event is delivered more often than it arrived, and a settled one exactly as
  // often. Link changes, refusals, evictions and failing reads are all quiet.
  lemma QuietMeansOnce(cfg: Config, file: seq<Event>, run: seq<Step>, e: Event)
    requires Exec(cfg, Boot(file), run).Some? && QuietRun(run)
    ensures var s := Exec(cfg, Boot(file), run).value;
            && s.phantom[e] == 0 && s.redelivered[e] == 0
            && multiset(s.broker)[e] <= s.arrived[e]
            && (Settled(s, e) ==> multiset(s.broker)[e] == s.arrived[e])
  {
    CalmRun(cfg, Boot(file), run, e);
    RunCounts(cfg, Boot(file), run, e);
    AtMostOnce(cfg, file, run, e);
    if Settled(Exec(cfg, Boot(file), run).value, e) {
      DeliveredAsArrivedIff(cfg, file, run, e);
    }
  }

  // ----- none of the four can be left out --------------------------------------------------

  // The repository's README promises replay "exactly once". This is what goes wrong: an
  // event that arrived once is logged twice, and apart from steps of one kind the run
  // is quiet.
  ghost predicate Twice(cfg: Config, file: seq<Event>, kind: Kind, run: seq<Step>, ev: Event) {
    && (forall i :: 0 <= i < |run| ==> Allowed(run[i], kind))
    && Exec(cfg, Boot(file), run).Some?
    && var s := Exec(cfg, Boot(file), run).value;
       s.arrived == multiset{ev} && s.broker == [ev, ev] && s.file == []
  }

  // An event the broker has, and its handler thinks it has not: spooled, and replayed.
  lemma SpooledAgain(cfg: Config, file: seq<Event>, kind: Kind, run: seq<Step>, s: State, ev: Event)
    returns (whole: seq<Step>)
    requires Reaches(cfg, Boot(file), kind, run, s)
    requires s.up && s.holder.Free? && s.file == [] && cfg.max > 0 && |s.procs| > 0 && s.procs[0] == Failed(ev)
    requires s.broker == [ev] && s.arrived == multiset{ev} && Deliverable(cfg, ev)
    ensures Twice(cfg, file, kind, whole, ev)
  {
    var spool := CanSpool(cfg, s, 0, ev);
    var t := Spooled(s, 0, ev);
    QuietEverywhere(cfg, s, kind, spool, t);
    Chain(cfg, Boot(file), kind, run, s, spool, t);
    whole := ReplayedAgain(cfg, file, kind, run + spool, t, ev);
  }

  // An event the broker has, still in the file: replayed.
  lemma ReplayedAgain(cfg: Config, file: seq<Event>, kind: Kind, run: seq<Step>, s: State, ev: Event)
    returns (whole: seq<Step>)
    requires Reaches(cfg, Boot(file), kind, run, s)
    requires s.up && s.holder.Free? && s.file == [ev]
    requires s.broker == [ev] && s.arrived == multiset{ev} && Deliverable(cfg, ev)
    ensures Twice(cfg, file, kind, whole, ev)
  {
    var drain := CanDrain(cfg, s);
    QuietEverywhere(cfg, s, kind, drain, Drained(s));
    Chain(cfg, Boot(file), kind, run, s, drain, Drained(s));
    whole := run + drain;
    assert [ev] + [ev] == [ev, ev];
  }

  // A handler that holds one event and looks at a live link.
  function Started(ev: Event): State {
    Boot([]).(up := true, procs := [Sending(ev, NotSent)], arrived := multiset{ev})
  }

  lemma Starts(cfg: Config, kind: Kind, ev: Event) returns (run: seq<Step>)
    ensures Reaches(cfg, Boot([]), kind, run, Started(ev))
  {
    var nothing: seq<Event> := [];
    assert multiset(nothing) + multiset{ev} == multiset{ev};
    assert [] + [Sending(ev, NotSent)] == [Sending(ev, NotSent)];
    var s := Boot([]).(up := true);
    run := Then(cfg, Boot([]), kind, [], Boot([]), Link(true), s);
    run := Then(cfg, Boot([]), kind, run, s, Arrive(ev), Started(ev));
  }

  // The broker has the event, its handler is still waiting.
  lemma StartsAndStores(cfg: Config, kind: Kind, ev: Event) returns (run: seq<Step>)
    requires Routable(cfg, ev)
    ensures Reaches(cfg, Boot([]), kind, run, Started(ev).(procs := [Sending(ev, AtBroker)], broker := [ev]))
  {
    run := Starts(cfg, kind, ev);
    var more := LiveStored(cfg, Started(ev), 0, ev);
    var t := Sent(Started(ev), 0, ev, AtBroker).(broker := Started(ev).broker + [ev]);
    QuietEverywhere(cfg, Started(ev), kind, more, t);
    Chain(cfg, Boot([]), kind, run, Started(ev), more, t);
    run := run + more;
    assert [] + [ev] == [ev] && Started(ev).procs[0 := Sending(ev, AtBroker)] == [Sending(ev, AtBroker)];
  }

  // One acknowledgement that comes after the publish timeout.
  lemma TwiceByNoAnswer(cfg: Config, ev: Event) returns (run: seq<Step>)
    requires cfg.max > 0 && Deliverable(cfg, ev)
    ensures Twice(cfg, [], NoAnswer, run, ev)
  {
    run := StartsAndStores(cfg, NoAnswer, ev);
    var s := Started(ev).(procs := [Sending(ev, AtBroker)], broker := [ev]);
    var t := s.(procs := [Failed(ev), Stray(ev, AtBroker)], phantom := s.phantom + multiset{ev});
    FailsUnanswered(cfg, s, ev);
    run := Then(cfg, Boot([]), NoAnswer, run, s, Return(P(0), Unanswered), t);
    run := SpooledAgain(cfg, [], NoAnswer, run, t, ev);
  }

  lemma FailsUnanswered(cfg: Config, s: State, ev: Event)
    requires s.procs == [Sending(ev, AtBroker)]
    ensures Next(cfg, s, Return(P(0), Unanswered))
            == Some(s.(procs := [Failed(ev), Stray(ev, AtBroker)], phantom := s.phantom + multiset{ev}))
  {
    assert s.procs[0 := Failed(ev)] + [Stray(ev, AtBroker)] == [Failed(ev), Stray(ev, AtBroker)];
  }

  // One acknowledgement that comes after the receiver's own timeout.
  lemma TwiceByReceiver(cfg: Config, ev: Event) returns (run: seq<Step>)
    requires cfg.transport.Coap? && cfg.max > 0 && Deliverable(cfg, ev)
    ensures Twice(cfg, [], ReceiverFails, run, ev)
  {
    run := StartsAndStores(cfg, ReceiverFails, ev);
    var s := Started(ev).(procs := [Sending(ev, AtBroker)], broker := [ev]);
    var t := s.(procs := [Sending(ev, Reply(Receiver.SERVICE_UNAVAILABLE, true))]);
    var u := s.(procs := [Failed(ev)], phantom := s.phantom + multiset{ev});
    ReceiverAnswersBusy(cfg, s, ev);
    run := Then(cfg, Boot([]), ReceiverFails, run, s, Network(P(0), ReceiverTimeout), t);
    FailsBusy(cfg, t, ev);
    run := Then(cfg, Boot([]), ReceiverFails, run, t, Return(P(0), Answered), u);
    run := SpooledAgain(cfg, [], ReceiverFails, run, u, ev);
  }

  lemma ReceiverAnswersBusy(cfg: Config, s: State, ev: Event)
    requires cfg.transport.Coap? && s.procs == [Sending(ev, AtBroker)]
    ensures Next(cfg, s, Network(P(0), ReceiverTimeout))
            == Some(s.(procs := [Sending(ev, Reply(Receiver.SERVICE_UNAVAILABLE, true))]))
  {
    var answered := Sending(ev, Reply(Receiver.SERVICE_UNAVAILABLE, true));
    assert s.procs[0 := answered] + [] == [answered];
  }

  lemma FailsBusy(cfg: Config, t: State, ev: Event)
    requires t.procs == [Sending(ev, Reply(Receiver.SERVICE_UNAVAILABLE, true))]
    ensures Next(cfg, t, Return(P(0), Answered))
            == Some(t.(procs := [Failed(ev)], phantom := t.phantom + multiset{ev}))
  {
    assert !Receiver.IsSuccess(Receiver.SERVICE_UNAVAILABLE);
    assert t.procs[0 := Failed(ev)] + [] == [Failed(ev)];
  }

  // An event left in the file by an earlier life, replayed up to the rewrite.
  lemma ReplaysFirst(cfg: Config, kind: Kind, ev: Event) returns (run: seq<Step>)
    requires Deliverable(cfg, ev)
    ensures Reaches(cfg, Boot([ev]), kind, run, AfterReplays(Boot([ev]).(up := true)))
  {
    var s := Boot([ev]).(up := true);
    run := Then(cfg, Boot([ev]), kind, [], Boot([ev]), Link(true), s);
    var more := ReplaysAll(cfg, s);
    QuietEverywhere(cfg, s, kind, more, AfterReplays(s));
    Chain(cfg, Boot([ev]), kind, run, s, more, AfterReplays(s));
    run := run + more;
  }

  // One failing rewrite.
  lemma TwiceByRewrite(cfg: Config, ev: Event) returns (run: seq<Step>)
    requires Deliverable(cfg, ev)
    ensures Twice(cfg, [ev], RewriteFails, run, ev)
  {
    run := ReplaysFirst(cfg, RewriteFails, ev);
    var s := AfterReplays(Boot([ev]).(up := true));
    assert [] + [ev] == [ev] && [ev][..1] == [ev];
    var t := s.(holder := Free, redelivered := s.redelivered + multiset([ev][..1]));
    run := Then(cfg, Boot([ev]), RewriteFails, run, s, Buffer(WriteFails(true)), t);
    run := ReplayedAgain(cfg, [ev], RewriteFails, run, t, ev);
  }

  // One crash between a replay and the rewrite.
  lemma TwiceByCrash(cfg: Config, ev: Event) returns (run: seq<Step>)
    requires Deliverable(cfg, ev)
    ensures Twice(cfg, [ev], Dies, run, ev)
  {
    run := ReplaysFirst(cfg, Dies, ev);
    var s := AfterReplays(Boot([ev]).(up := true));
    assert [] + [ev] == [ev] && [ev][..1] == [ev];
    var t := Crash(s);
    run := Then(cfg, Boot([ev]), Dies, run, s, Die, t);
    run := Then(cfg, Boot([ev]), Dies, run, t, Link(true), t.(up := true));
    run := ReplayedAgain(cfg, [ev], Dies, run, t.(up := true), ev);
  }
}
