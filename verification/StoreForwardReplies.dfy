// What answers mean, and when requests are sent, over every run of the protocol
// (edge-agent/uplink.go, coap.go; coap-receiver/handler.go).
module StoreForwardReplies {
  import opened Wrappers
  import opened Events
  import opened StoreForward
  import Receiver

  // Where a request may be, and which answer may be on its way back.
  predicate Honest(cfg: Config, ev: Event, at: Phase) {
    match at
    case NotSent => true
    case OnWire => true
    case AtReceiver => cfg.transport.Coap? && Receiver.Acceptable(ev)
    case AtBroker => Routable(cfg, ev)
    case Reply(code, stored) =>
      || (code == Receiver.CHANGED && stored && Routable(cfg, ev))
      || (code == Receiver.BAD_REQUEST && !stored && cfg.transport.Coap? && !Receiver.Acceptable(ev))
      || (code == Receiver.SERVICE_UNAVAILABLE && cfg.transport.Coap? && Receiver.Acceptable(ev)
          && (stored ==> Routable(cfg, ev)))
  }

  predicate HonestProc(cfg: Config, p: Proc) {
    (p.Sending? ==> Honest(cfg, p.ev, p.at)) && (p.Stray? ==> Honest(cfg, p.ev, p.at))
  }

  predicate HonestProcs(cfg: Config, ps: seq<Proc>) {
    forall i :: 0 <= i < |ps| ==> HonestProc(cfg, ps[i])
  }

  predicate HonestHolder(cfg: Config, h: Holder) {
    h.Draining? && h.i < |h.evs| ==> Honest(cfg, h.evs[h.i], h.at)
  }

  predicate AllHonest(cfg: Config, s: State) {
    HonestProcs(cfg, s.procs) && HonestHolder(cfg, s.holder)
  }

  // Each hop leads to such a place.
  lemma HopHonest(cfg: Config, up: bool, ev: Event, at: Phase, m: Move)
    requires Honest(cfg, ev, at) && Hop(cfg, up, ev, at, m).Some?
    ensures Honest(cfg, ev, Hop(cfg, up, ev, at, m).value)
  {
  }

  lemma MoreProcs(cfg: Config, ps: seq<Proc>, more: seq<Proc>)
    requires HonestProcs(cfg, ps) && HonestProcs(cfg, more)
    ensures HonestProcs(cfg, ps + more)
  {
  }

  lemma AdvanceHonest(cfg: Config, s: State, who: Who, m: Move, t: State)
    requires AllHonest(cfg, s) && Advance(cfg, s, who, m) == Some(t)
    ensures AllHonest(cfg, t)
  {
    var (ev, at) := Request(s, who).value;
    if who.P? {
      assert HonestProc(cfg, s.procs[who.i]);
    }
    assert Honest(cfg, ev, at);
    HopHonest(cfg, s.up, ev, at, m);
    var at' := Hop(cfg, s.up, ev, at, m).value;
    PutHonest(cfg, s, who, ev, at');
    MoreProcs(cfg, Put(s, who, at').procs, Leftover(ev, at, m));
  }

  lemma PutHonest(cfg: Config, s: State, who: Who, ev: Event, at': Phase)
    requires AllHonest(cfg, s) && Request(s, who).Some? && Request(s, who).value.0 == ev && Honest(cfg, ev, at')
    ensures AllHonest(cfg, Put(s, who, at'))
  {
  }

  lemma LeaveHonest(cfg: Config, s: State, who: Who, r: StoreForward.Return, t: State)
    requires AllHonest(cfg, s) && Leave(s, who, r) == Some(t)
    ensures AllHonest(cfg, t)
  {
    var (ev, at) := Request(s, who).value;
    if who.P? {
      assert HonestProc(cfg, s.procs[who.i]);
    }
    var ok := Verdict(s.up, at, r).value;
    ResumeHonest(cfg, s, who, ok);
    MoreProcs(cfg, Resume(s, who, ok).procs, if r.Unanswered? then [Stray(ev, at)] else []);
  }

  lemma ResumeHonest(cfg: Config, s: State, who: Who, ok: bool)
    requires AllHonest(cfg, s) && Request(s, who).Some? && !IsStray(s, who)
    ensures AllHonest(cfg, Resume(s, who, ok))
  {
  }

  lemma DiskHonest(cfg: Config, s: State, d: DiskStep, t: State)
    requires AllHonest(cfg, s) && Disk(cfg, s, d) == Some(t)
    ensures AllHonest(cfg, t)
  {
  }

  lemma {:induction false} OrphansHonest(cfg: Config, ps: seq<Proc>)
    requires HonestProcs(cfg, ps)
    ensures HonestProcs(cfg, Orphans(ps))
  {
    if ps != [] {
      assert HonestProc(cfg, ps[0]);
      OrphansHonest(cfg, ps[1..]);
      MoreProcs(cfg, [Orphan(ps[0])], Orphans(ps[1..]));
    }
  }

  lemma CrashHonest(cfg: Config, s: State)
    requires AllHonest(cfg, s)
    ensures AllHonest(cfg, Crash(s))
  {
    OrphansHonest(cfg, s.procs);
    MoreProcs(cfg, Orphans(s.procs), DrainOrphan(s.holder));
  }

  lemma StepHonest(cfg: Config, s: State, step: Step, t: State)
    requires AllHonest(cfg, s) && Next(cfg, s, step) == Some(t)
    ensures AllHonest(cfg, t)
  {
    match step
    case Link(_) =>
    case Arrive(ev) => MoreProcs(cfg, s.procs, [Sending(ev, NotSent)]);
    case Network(who, m) => AdvanceHonest(cfg, s, who, m, t);
    case Return(who, r) => LeaveHonest(cfg, s, who, r, t);
    case Discard(_) =>
    case Buffer(d) => DiskHonest(cfg, s, d, t);
    case Die => CrashHonest(cfg, s);
  }

  lemma {:induction false} RunHonest(cfg: Config, s: State, run: seq<Step>, t: State)
    requires AllHonest(cfg, s) && Exec(cfg, s, run) == Some(t)
    ensures AllHonest(cfg, t)
    decreases |run|
  {
    if run != [] {
      var u := Next(cfg, s, run[0]).value;
      StepHonest(cfg, s, run[0], u);
      RunHonest(cfg, u, run[1..], t);
    }
  }

  // Whatever answer is on its way to a handler, to the drain or to nobody, in any
  // reachable state: a success says that the broker has the event, 4.00 comes exactly to
  // events that the receiver cannot take, without a receiver there is no answer but
  // success, and nothing without a way to the broker is ever with the broker.
  lemma RepliesHonest(cfg: Config, file: seq<Event>, run: seq<Step>, s: State, who: Who, ev: Event, at: Phase)
    requires Exec(cfg, Boot(file), run) == Some(s) && Request(s, who) == Some((ev, at))
    ensures at.Reply? ==>
              && (Receiver.IsSuccess(at.code) ==> at.stored)
              && (at.code == Receiver.BAD_REQUEST <==> cfg.transport.Coap? && !Receiver.Acceptable(ev))
              && (cfg.transport.Mqtt? ==> Receiver.IsSuccess(at.code))
    ensures Stored(at) ==> Routable(cfg, ev)
    ensures at.AtReceiver? ==> cfg.transport.Coap? && Receiver.Acceptable(ev)
  {
    RunHonest(cfg, Boot(file), run, s);
    if who.P? {
      assert HonestProc(cfg, s.procs[who.i]);
    }
  }

  // ----- sending ------------------------------------------------------------------------

  // An event that its handler has not sent is sent only while the link is up, and given
  // to the buffer unsent only while it is down.
  lemma SendsWhenUp(cfg: Config, s: State, step: Step, t: State, i: nat, ev: Event)
    requires Next(cfg, s, step) == Some(t) && i < |s.procs| && s.procs[i] == Sending(ev, NotSent)
    ensures i < |t.procs|
    ensures || t.procs[i] == s.procs[i]
            || (t.procs[i] == Sending(ev, OnWire) && s.up)
            || (t.procs[i] == Failed(ev) && !s.up)
            || (t.procs[i] == Finished && step.Die?)
  {
    match step
    case Network(who, m) => SendMoves(cfg, s, who, m, t, i, ev);
    case Return(who, r) => SendReturns(s, who, r, t, i, ev);
    case Die => DiesUnsent(s, i, ev);
    case Buffer(d) => DiskLeaves(cfg, s, d, t, i, ev);
    case _ =>
  }

  lemma DiesUnsent(s: State, i: nat, ev: Event)
    requires i < |s.procs| && s.procs[i] == Sending(ev, NotSent)
    ensures i < |Crash(s).procs| && Crash(s).procs[i] == Finished
  {
    OrphanAt(s.procs, i);
  }

  lemma DiskLeaves(cfg: Config, s: State, d: DiskStep, t: State, i: nat, ev: Event)
    requires Disk(cfg, s, d) == Some(t) && i < |s.procs| && s.procs[i] == Sending(ev, NotSent)
    ensures i < |t.procs| && t.procs[i] == s.procs[i]
  {
  }

  lemma SendMoves(cfg: Config, s: State, who: Who, m: Move, t: State, i: nat, ev: Event)
    requires Advance(cfg, s, who, m) == Some(t) && i < |s.procs| && s.procs[i] == Sending(ev, NotSent)
    ensures i < |t.procs| && (t.procs[i] == s.procs[i] || (t.procs[i] == Sending(ev, OnWire) && s.up))
  {
  }

  lemma SendReturns(s: State, who: Who, r: StoreForward.Return, t: State, i: nat, ev: Event)
    requires Leave(s, who, r) == Some(t) && i < |s.procs| && s.procs[i] == Sending(ev, NotSent)
    ensures i < |t.procs| && (t.procs[i] == s.procs[i] || (t.procs[i] == Failed(ev) && !s.up))
  {
  }

  lemma {:induction false} OrphanAt(ps: seq<Proc>, i: nat)
    requires i < |ps|
    ensures Orphans(ps)[i] == Orphan(ps[i])
  {
    if i > 0 {
      OrphanAt(ps[1..], i - 1);
    }
  }

  // The same for the next event of a drain; with the link down the drain stops there and
  // what it has not replayed stays.
  lemma DrainSendsWhenUp(cfg: Config, s: State, step: Step, t: State, evs: seq<Event>, i: nat)
    requires Next(cfg, s, step) == Some(t) && s.holder == Draining(evs, i, NotSent) && i < |evs|
    ensures || t.holder == s.holder
            || (t.holder == Draining(evs, i, OnWire) && s.up)
            || (t.holder == Writing(DrainJob(evs, i), evs[i..], Start) && !s.up)
            || (t.holder == Free && step.Die?)
  {
    match step
    case Network(who, m) => DrainMoves(cfg, s, who, m, t, evs, i);
    case _ =>
  }

  lemma DrainMoves(cfg: Config, s: State, who: Who, m: Move, t: State, evs: seq<Event>, i: nat)
    requires Advance(cfg, s, who, m) == Some(t) && s.holder == Draining(evs, i, NotSent) && i < |evs|
    ensures t.holder == s.holder || (t.holder == Draining(evs, i, OnWire) && s.up)
  {
  }

  // ----- a crash ------------------------------------------------------------------------

  // A request of this event that has been sent, or that nobody waits for.
  predicate Travels(s: State, who: Who, ev: Event, at: Phase) {
    Request(s, who) == Some((ev, at)) && (at != NotSent || IsStray(s, who))
  }

  predicate StrayAt(ps: seq<Proc>, i: nat, ev: Event, at: Phase) {
    i < |ps| && ps[i] == Stray(ev, at)
  }

  lemma OrphanTravelled(p: Proc, ev: Event, at: Phase)
    requires Orphan(p) == Stray(ev, at)
    ensures p == Stray(ev, at) || (p == Sending(ev, at) && at != NotSent)
  {
  }

  lemma WasTravelling(s: State, i: nat, ev: Event, at: Phase) returns (who: Who)
    requires StrayAt(Orphans(s.procs) + DrainOrphan(s.holder), i, ev, at)
    ensures Travels(s, who, ev, at)
  {
    if i < |s.procs| {
      OrphanAt(s.procs, i);
      OrphanTravelled(s.procs[i], ev, at);
      who := P(i);
    } else {
      who := D;
    }
  }

  lemma StaysTravelling(s: State, who: Who, ev: Event, at: Phase) returns (i: nat)
    requires Travels(s, who, ev, at)
    ensures StrayAt(Orphans(s.procs) + DrainOrphan(s.holder), i, ev, at)
  {
    if who.P? {
      OrphanAt(s.procs, who.i);
      i := who.i;
    } else {
      i := |s.procs|;
    }
  }

  // The requests that travel after a crash are exactly those that travelled before it,
  // with nobody waiting for them; what was not sent is not sent any more.
  lemma CrashLeavesRequests(s: State, ev: Event, at: Phase)
    ensures (exists i :: StrayAt(Crash(s).procs, i, ev, at)) <==> exists who :: Travels(s, who, ev, at)
  {
    if i: nat :| StrayAt(Crash(s).procs, i, ev, at) {
      var who := WasTravelling(s, i, ev, at);
    }
    if who :| Travels(s, who, ev, at) {
      var i := StaysTravelling(s, who, ev, at);
      assert StrayAt(Crash(s).procs, i, ev, at);
    }
  }
}
