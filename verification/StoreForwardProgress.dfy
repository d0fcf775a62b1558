// What the store-and-forward protocol can still do, and when it can do nothing more.
module StoreForwardProgress {
  import opened Wrappers
  import opened Events
  import opened Fifo
  import opened StoreForward
  import opened StoreForwardProofs
  import opened StoreForwardTheorems
  import JsonLines
  import Receiver

  // ----- composing runs -----------------------------------------------------------

  // The four kinds of step that are not quiet.
  datatype Kind = NoKind | NoAnswer | ReceiverFails | RewriteFails | Dies

  predicate Allowed(step: Step, kind: Kind) {
    || Quiet(step)
    || (kind.NoAnswer? && step.Return? && step.r.Unanswered?)
    || (kind.ReceiverFails? && step.Network? && step.m.ReceiverTimeout?)
    || (kind.RewriteFails? && step.Buffer? && step.d.WriteFails?)
    || (kind.Dies? && step.Die?)
  }

  // The run leads from s to t with quiet steps and steps of one other kind.
  ghost predicate Reaches(cfg: Config, s: State, kind: Kind, run: seq<Step>, t: State) {
    Exec(cfg, s, run) == Some(t) && forall i :: 0 <= i < |run| ==> Allowed(run[i], kind)
  }

  lemma {:induction false} ExecAppend(cfg: Config, s: State, run: seq<Step>, more: seq<Step>)
    requires Exec(cfg, s, run).Some?
    ensures Exec(cfg, s, run + more) == Exec(cfg, Exec(cfg, s, run).value, more)
    decreases |run|
  {
    if run == [] {
      assert run + more == more;
    } else {
      assert (run + more)[1..] == run[1..] + more;
      ExecAppend(cfg, Next(cfg, s, run[0]).value, run[1..], more);
    }
  }

  lemma Chain(cfg: Config, s: State, kind: Kind, run: seq<Step>, t: State, more: seq<Step>, u: State)
    requires Reaches(cfg, s, kind, run, t) && Reaches(cfg, t, kind, more, u)
    ensures Reaches(cfg, s, kind, run + more, u)
  {
    ExecAppend(cfg, s, run, more);
  }

  lemma Single(cfg: Config, s: State, step: Step)
    requires Next(cfg, s, step).Some?
    ensures Exec(cfg, s, [step]) == Next(cfg, s, step)
  {
    assert [step][1..] == [];
    assert Exec(cfg, Next(cfg, s, step).value, []) == Next(cfg, s, step);
  }

  lemma Then(cfg: Config, s: State, kind: Kind, run: seq<Step>, t: State, step: Step, u: State) returns (more: seq<Step>)
    requires Reaches(cfg, s, kind, run, t) && Next(cfg, t, step) == Some(u) && Allowed(step, kind)
    ensures Reaches(cfg, s, kind, more, u)
  {
    Single(cfg, t, step);
    Chain(cfg, s, kind, run, t, [step], u);
    more := run + [step];
  }

  lemma QuietEverywhere(cfg: Config, s: State, kind: Kind, run: seq<Step>, t: State)
    requires Reaches(cfg, s, NoKind, run, t)
    ensures Reaches(cfg, s, kind, run, t)
  {
  }

  // ----- replays --------------------------------------------------------------------

  // There is a way to the broker, and the line can be read back from the file.
  predicate Deliverable(cfg: Config, ev: Event) {
    Routable(cfg, ev) && JsonLines.Fits(ev)
  }

  predicate AllDeliverable(cfg: Config, evs: seq<Event>) {
    forall k :: 0 <= k < |evs| ==> Deliverable(cfg, evs[k])
  }

  function DrainAt(t: State, at: Phase): State
    requires t.holder.Draining?
  {
    t.(holder := t.holder.(at := at))
  }

  // The drain's request makes one hop.
  lemma DrainHop(cfg: Config, t: State, m: Move)
    requires t.holder.Draining? && t.holder.i < |t.holder.evs| && !m.ReceiverTimeout?
    requires Hop(cfg, t.up, t.holder.evs[t.holder.i], t.holder.at, m).Some?
    ensures var ev := t.holder.evs[t.holder.i];
            var u := DrainAt(t, Hop(cfg, t.up, ev, t.holder.at, m).value);
            Next(cfg, t, Network(D, m)) == Some(u.(broker := if m.Store? then t.broker + [ev] else t.broker))
  {
    assert t.procs + [] == t.procs;
  }

  // From the caller's first look at the link to the acknowledgement.
  lemma DrainRequest(cfg: Config, s: State, evs: seq<Event>, i: nat) returns (run: seq<Step>)
    requires s.up && i < |evs| && s.holder == Draining(evs, i, NotSent)
    requires Routable(cfg, evs[i])
    ensures Reaches(cfg, s, NoKind, run,
                    s.(holder := Draining(evs, i, Reply(Receiver.CHANGED, true)), broker := s.broker + [evs[i]]))
  {
    DrainHop(cfg, s, Send);
    var a := DrainAt(s, OnWire);
    run := Then(cfg, s, NoKind, [], s, Network(D, Send), a);
    if cfg.transport.Coap? {
      DrainHop(cfg, a, Receive);
      run := Then(cfg, s, NoKind, run, a, Network(D, Receive), DrainAt(s, AtReceiver));
      a := DrainAt(s, AtReceiver);
    }
    run := DrainStored(cfg, s, run, a);
  }

  lemma DrainStored(cfg: Config, s: State, run: seq<Step>, a: State) returns (more: seq<Step>)
    requires s.holder.Draining? && s.holder.i < |s.holder.evs| && Routable(cfg, s.holder.evs[s.holder.i])
    requires Reaches(cfg, s, NoKind, run, a) && a == DrainAt(s, if cfg.transport.Coap? then AtReceiver else OnWire)
    ensures var ev := s.holder.evs[s.holder.i];
            Reaches(cfg, s, NoKind, more, DrainAt(s, Reply(Receiver.CHANGED, true)).(broker := s.broker + [ev]))
  {
    var ev := s.holder.evs[s.holder.i];
    var b := DrainAt(s, AtBroker).(broker := s.broker + [ev]);
    DrainHop(cfg, a, Store);
    more := Then(cfg, s, NoKind, run, a, Network(D, Store), b);
    DrainHop(cfg, b, Ack);
    more := Then(cfg, s, NoKind, more, b, Network(D, Ack), DrainAt(b, Reply(Receiver.CHANGED, true)));
  }

  // One replay that goes through.
  lemma ReplayOne(cfg: Config, s: State, evs: seq<Event>, i: nat) returns (run: seq<Step>)
    requires s.up && i < |evs| && s.holder == Draining(evs, i, NotSent)
    requires Routable(cfg, evs[i])
    ensures Reaches(cfg, s, NoKind, run, s.(holder := Draining(evs, i + 1, NotSent), broker := s.broker + [evs[i]]))
  {
    run := DrainRequest(cfg, s, evs, i);
    var t := s.(holder := Draining(evs, i, Reply(Receiver.CHANGED, true)), broker := s.broker + [evs[i]]);
    assert Receiver.IsSuccess(Receiver.CHANGED);
    assert t.procs + [] == t.procs;
    run := Then(cfg, s, NoKind, run, t, Return(D, Answered),
                s.(holder := Draining(evs, i + 1, NotSent), broker := s.broker + [evs[i]]));
  }

  lemma RoutableAt(cfg: Config, evs: seq<Event>, i: nat)
    requires AllDeliverable(cfg, evs) && i < |evs|
    ensures Routable(cfg, evs[i])
  {
    assert Deliverable(cfg, evs[i]);
  }

  lemma OneReplayed(broker: seq<Event>, evs: seq<Event>, i: nat)
    requires i < |evs|
    ensures broker + [evs[i]] + evs[i + 1..] == broker + evs[i..]
  {
  }

  lemma {:induction false} ReplayRest(cfg: Config, s: State, evs: seq<Event>, i: nat) returns (run: seq<Step>)
    requires s.up && i <= |evs| && s.holder == Draining(evs, i, NotSent) && AllDeliverable(cfg, evs)
    ensures Reaches(cfg, s, NoKind, run, s.(holder := Draining(evs, |evs|, NotSent), broker := s.broker + evs[i..]))
    decreases |evs| - i
  {
    if i == |evs| {
      run := [];
      assert s.broker + evs[i..] == s.broker;
    } else {
      RoutableAt(cfg, evs, i);
      run := ReplayOne(cfg, s, evs, i);
      var t := s.(holder := Draining(evs, i + 1, NotSent), broker := s.broker + [evs[i]]);
      var rest := ReplayRest(cfg, t, evs, i + 1);
      OneReplayed(s.broker, evs, i);
      Chain(cfg, s, NoKind, run, t, rest, s.(holder := Draining(evs, |evs|, NotSent), broker := s.broker + evs[i..]));
      run := run + rest;
    }
  }

  // All replays of a drain done, and the rewrite to come.
  function AfterReplays(s: State): State {
    s.(holder := Writing(DrainJob(s.file, |s.file|), [], Start), broker := s.broker + s.file)
  }

  lemma ReplaysAll(cfg: Config, s: State) returns (run: seq<Step>)
    requires s.up && s.holder.Free? && s.file != [] && AllDeliverable(cfg, s.file)
    ensures Reaches(cfg, s, NoKind, run, AfterReplays(s))
  {
    assert forall k :: 0 <= k < |s.file| ==> Deliverable(cfg, s.file[k]) ==> JsonLines.Fits(s.file[k]);
    assert Readable(s);
    var t := s.(holder := Draining(s.file, 0, NotSent));
    run := Then(cfg, s, NoKind, [], s, Buffer(DrainStart), t);
    var rest := ReplayRest(cfg, t, s.file, 0);
    assert s.file[0..] == s.file;
    var u := s.(holder := Draining(s.file, |s.file|, NotSent), broker := s.broker + s.file);
    Chain(cfg, s, NoKind, run, t, rest, u);
    run := Then(cfg, s, NoKind, run + rest, u, Buffer(DrainEnd), AfterReplays(s));
  }

  function Drained(s: State): State {
    s.(file := [], broker := s.broker + s.file, removed := s.removed + Replays(s.file))
  }

  // From any state with the link up and the lock free, whatever happened before, a
  // buffer of deliverable events can be emptied, and the broker gets them in order.
  lemma CanDrain(cfg: Config, s: State) returns (run: seq<Step>)
    requires s.up && s.holder.Free? && s.file != [] && AllDeliverable(cfg, s.file)
    ensures Reaches(cfg, s, NoKind, run, Drained(s))
  {
    run := ReplaysAll(cfg, s);
    assert s.file[..|s.file|] == s.file;
    run := Then(cfg, s, NoKind, run, AfterReplays(s), Buffer(Remove), Drained(s));
  }

  // ----- live publishes and spooling ------------------------------------------------

  // A handler's request makes one hop.
  lemma LiveHop(cfg: Config, t: State, i: nat, m: Move)
    requires i < |t.procs| && t.procs[i].Sending? && !m.ReceiverTimeout?
    requires Hop(cfg, t.up, t.procs[i].ev, t.procs[i].at, m).Some?
    ensures var ev := t.procs[i].ev;
            var u := t.(procs := t.procs[i := Sending(ev, Hop(cfg, t.up, ev, t.procs[i].at, m).value)]);
            Next(cfg, t, Network(P(i), m)) == Some(u.(broker := if m.Store? then t.broker + [ev] else t.broker))
  {
    var moved := t.procs[i := Sending(t.procs[i].ev, Hop(cfg, t.up, t.procs[i].ev, t.procs[i].at, m).value)];
    assert moved + [] == moved;
  }

  function Sent(s: State, i: nat, ev: Event, at: Phase): State
    requires i < |s.procs|
  {
    s.(procs := s.procs[i := Sending(ev, at)])
  }

  // The broker logs the event of a handler, which does not know it yet.
  lemma LiveStored(cfg: Config, s: State, i: nat, ev: Event) returns (run: seq<Step>)
    requires s.up && i < |s.procs| && s.procs[i] == Sending(ev, NotSent)
    requires Routable(cfg, ev)
    ensures Reaches(cfg, s, NoKind, run, Sent(s, i, ev, AtBroker).(broker := s.broker + [ev]))
  {
    LiveHop(cfg, s, i, Send);
    var a := Sent(s, i, ev, OnWire);
    run := Then(cfg, s, NoKind, [], s, Network(P(i), Send), a);
    if cfg.transport.Coap? {
      LiveHop(cfg, a, i, Receive);
      var b := Sent(s, i, ev, AtReceiver);
      assert a.procs[i := Sending(ev, AtReceiver)] == b.procs;
      run := Then(cfg, s, NoKind, run, a, Network(P(i), Receive), b);
      a := b;
    }
    LiveHop(cfg, a, i, Store);
    var c := Sent(s, i, ev, AtBroker).(broker := s.broker + [ev]);
    assert a.procs[i := Sending(ev, AtBroker)] == c.procs;
    run := Then(cfg, s, NoKind, run, a, Network(P(i), Store), c);
  }

  function Published(s: State, i: nat, ev: Event): State
    requires i < |s.procs|
  {
    s.(procs := s.procs[i := Finished], broker := s.broker + [ev], ackedLive := s.ackedLive + multiset{ev})
  }

  // With the link up, a handler can deliver its event without touching the buffer, and
  // knows that it did.
  lemma CanPublish(cfg: Config, s: State, i: nat, ev: Event) returns (run: seq<Step>)
    requires s.up && i < |s.procs| && s.procs[i] == Sending(ev, NotSent)
    requires Routable(cfg, ev)
    ensures Reaches(cfg, s, NoKind, run, Published(s, i, ev))
  {
    run := LiveStored(cfg, s, i, ev);
    var c := Sent(s, i, ev, AtBroker).(broker := s.broker + [ev]);
    LiveHop(cfg, c, i, Ack);
    var d := Sent(s, i, ev, Reply(Receiver.CHANGED, true)).(broker := s.broker + [ev]);
    assert c.procs[i := Sending(ev, Reply(Receiver.CHANGED, true))] == d.procs;
    run := Then(cfg, s, NoKind, run, c, Network(P(i), Ack), d);
    AckedReturns(cfg, d, i, ev);
    assert d.procs[i := Finished] == s.procs[i := Finished];
    run := Then(cfg, s, NoKind, run, d, Return(P(i), Answered), Published(s, i, ev));
  }

  lemma AckedReturns(cfg: Config, d: State, i: nat, ev: Event)
    requires i < |d.procs| && d.procs[i] == Sending(ev, Reply(Receiver.CHANGED, true))
    ensures Next(cfg, d, Return(P(i), Answered))
            == Some(d.(procs := d.procs[i := Finished], ackedLive := d.ackedLive + multiset{ev}))
  {
    assert Receiver.IsSuccess(Receiver.CHANGED);
    assert d.procs[i := Finished] + [] == d.procs[i := Finished];
  }

  function Spooled(s: State, i: nat, ev: Event): State
    requires i < |s.procs|
  {
    s.(procs := s.procs[i := Finished], file := [ev], temp := None, log := s.log + [ev])
  }

  // A failed handler spools its event into an empty buffer, whatever the event.
  lemma CanSpool(cfg: Config, s: State, i: nat, ev: Event) returns (run: seq<Step>)
    requires s.holder.Free? && s.file == [] && cfg.max > 0 && i < |s.procs| && s.procs[i] == Failed(ev)
    ensures Reaches(cfg, s, NoKind, run, Spooled(s, i, ev))
  {
    var s1 := s.(procs := s.procs[i := Finished], holder := Adding(ev));
    var s2 := s1.(holder := Writing(AddJob(ev), [ev], Start));
    run := Then(cfg, s, NoKind, [], s, Buffer(AddStart(i)), s1);
    assert s.file + [ev] == [ev] && Capped([ev], cfg.max) == [ev];
    run := Then(cfg, s, NoKind, run, s1, Buffer(AddRead), s2);
    var rest := WritesOne(cfg, s2, ev);
    var t := s2.(holder := Writing(AddJob(ev), [ev], Closed), temp := Some([ev]));
    Chain(cfg, s, NoKind, run, s2, rest, t);
    assert Evictions([ev][..0]) == [] && s.removed + [] == s.removed;
    run := Then(cfg, s, NoKind, run + rest, t, Buffer(Rename), Spooled(s, i, ev));
  }

  // The temporary file of one event.
  lemma WritesOne(cfg: Config, s: State, ev: Event) returns (run: seq<Step>)
    requires s.holder == Writing(AddJob(ev), [ev], Start)
    ensures Reaches(cfg, s, NoKind, run, s.(holder := Writing(AddJob(ev), [ev], Closed), temp := Some([ev])))
  {
    var a := s.(holder := Writing(AddJob(ev), [ev], Lines(0)), temp := Some([]));
    var b := s.(holder := Writing(AddJob(ev), [ev], Lines(1)), temp := Some([ev]));
    run := Then(cfg, s, NoKind, [], s, Buffer(Create), a);
    WritesLine(cfg, a, ev);
    run := Then(cfg, s, NoKind, run, a, Buffer(WriteLine), b);
    ClosesTemp(cfg, b, ev);
    run := Then(cfg, s, NoKind, run, b, Buffer(CloseTemp), b.(holder := Writing(AddJob(ev), [ev], Closed)));
  }

  lemma WritesLine(cfg: Config, a: State, ev: Event)
    requires a.holder == Writing(AddJob(ev), [ev], Lines(0)) && a.temp == Some([])
    ensures Next(cfg, a, Buffer(WriteLine))
            == Some(a.(holder := Writing(AddJob(ev), [ev], Lines(1)), temp := Some([ev])))
  {
    assert [] + [ev] == [ev];
  }

  lemma ClosesTemp(cfg: Config, b: State, ev: Event)
    requires b.holder == Writing(AddJob(ev), [ev], Lines(1)) && b.temp == Some([ev])
    ensures Next(cfg, b, Buffer(CloseTemp)) == Some(b.(holder := Writing(AddJob(ev), [ev], Closed)))
  {
  }

  // ----- a file that cannot be read ---------------------------------------------------

  // One event whose line does not fit, and nobody gets past reading the file.
  lemma FrozenDisk(cfg: Config, s: State, d: DiskStep)
    requires WellFormed(cfg, s) && !Readable(s) && Disk(cfg, s, d).Some?
    ensures d.AddStart? || d.AddReadFails?
    ensures var t := Disk(cfg, s, d).value;
            t.file == s.file && t.log == s.log && t.removed == s.removed && t.redelivered == s.redelivered
  {
  }

  lemma FrozenCrash(s: State)
    requires ReadOk(s) && !Readable(s)
    ensures Crash(s).redelivered == s.redelivered
  {
    assert Replaying(s.holder) == multiset{};
    assert s.redelivered + multiset{} == s.redelivered;
  }

  lemma FrozenNetwork(cfg: Config, s: State, who: Who, m: Move)
    requires Advance(cfg, s, who, m).Some?
    ensures var t := Advance(cfg, s, who, m).value;
            t.file == s.file && t.log == s.log && t.removed == s.removed && t.redelivered == s.redelivered
  {
  }

  lemma FrozenStep(cfg: Config, s: State, step: Step)
    requires WellFormed(cfg, s) && !Readable(s) && Next(cfg, s, step).Some?
    ensures var t := Next(cfg, s, step).value;
            t.file == s.file && t.log == s.log && t.removed == s.removed && t.redelivered == s.redelivered
  {
    match step
    case Network(who, m) => FrozenNetwork(cfg, s, who, m);
    case Return(who, r) => LeaveBooks(s, who, r);
    case Buffer(d) => FrozenDisk(cfg, s, d);
    case Die => FrozenCrash(s);
    case _ =>
  }

  lemma {:induction false} FrozenRun(cfg: Config, s: State, run: seq<Step>)
    requires WellFormed(cfg, s) && !Readable(s) && Exec(cfg, s, run).Some?
    ensures var t := Exec(cfg, s, run).value;
            && t.file == s.file && t.log == s.log && t.removed == s.removed && t.redelivered == s.redelivered
            && (t.holder.Free? || t.holder.Adding?)
    decreases |run|
  {
    if run != [] {
      FrozenStep(cfg, s, run[0]);
      StepShape(cfg, s, run[0]);
      FrozenRun(cfg, Next(cfg, s, run[0]).value, run[1..]);
    }
  }

  // Once an event that does not fit is in the file, then over every later run, crashes
  // and restarts included, the file never changes, nothing is replayed or evicted, and
  // no Add succeeds: whatever reaches the handlers from then on is published live, still
  // with a handler, or lost.
  lemma FrozenForever(cfg: Config, file: seq<Event>, run: seq<Step>, more: seq<Step>, e: Event)
    requires Exec(cfg, Boot(file), run).Some? && !Readable(Exec(cfg, Boot(file), run).value)
    requires Exec(cfg, Exec(cfg, Boot(file), run).value, more).Some?
    ensures var s := Exec(cfg, Boot(file), run).value;
            var t := Exec(cfg, s, more).value;
            && t.file == s.file && t.log == s.log && t.removed == s.removed
            && InHandlers(s, e) + t.arrived[e] + s.ackedLive[e] + s.lostAdd[e] + s.lostCrash[e]
               == InHandlers(t, e) + s.arrived[e] + t.ackedLive[e] + t.lostAdd[e] + t.lostCrash[e]
  {
    BootKeeps(cfg, file, e);
    RunKeeps(cfg, Boot(file), run, e);
    var s := Exec(cfg, Boot(file), run).value;
    FrozenRun(cfg, s, more);
    RunKeeps(cfg, s, more, e);
  }

  // It takes one outage: an event that does not fit, published while the link is down,
  // is spooled without a complaint.
  lemma CanFreeze(cfg: Config, ev: Event) returns (run: seq<Step>)
    requires cfg.max > 0 && !JsonLines.Fits(ev)
    ensures Exec(cfg, Boot([]), run).Some? && QuietRun(run)
    ensures var s := Exec(cfg, Boot([]), run).value; s.file == [ev] && !Readable(s)
  {
    var s: State;
    run, s := FailsOffline(cfg, ev);
    var spool := CanSpool(cfg, s, 0, ev);
    Chain(cfg, Boot([]), NoKind, run, s, spool, Spooled(s, 0, ev));
    run := run + spool;
    assert !JsonLines.Fits(Spooled(s, 0, ev).file[0]);
  }

  // A handler whose publish is refused because the link is down.
  lemma FailsOffline(cfg: Config, ev: Event) returns (run: seq<Step>, s: State)
    ensures s.holder.Free? && s.file == [] && s.procs == [Failed(ev)]
    ensures Reaches(cfg, Boot([]), NoKind, run, s)
  {
    var s0 := Boot([]);
    var s1 := s0.(procs := [Sending(ev, NotSent)], arrived := s0.arrived + multiset{ev});
    s := s1.(procs := [Failed(ev)]);
    assert [] + [Sending(ev, NotSent)] == s1.procs;
    run := Then(cfg, s0, NoKind, [], s0, Arrive(ev), s1);
    RefusedOffline(cfg, s1, ev);
    run := Then(cfg, s0, NoKind, run, s1, Return(P(0), Refused), s);
  }

  lemma RefusedOffline(cfg: Config, s: State, ev: Event)
    requires !s.up && s.procs == [Sending(ev, NotSent)]
    ensures Next(cfg, s, Return(P(0), Refused)) == Some(s.(procs := [Failed(ev)]))
  {
    assert s.procs[0 := Failed(ev)] + [] == [Failed(ev)];
  }

  // ----- exactly when a buffer can be emptied -------------------------------------------

  // Everything that was in the file has been replayed and has left it.
  ghost predicate Empties(cfg: Config, s: State, more: seq<Step>) {
    var t := Exec(cfg, s, more);
    t.Some? && t.value.file == [] && t.value.removed == s.removed + Replays(s.file)
  }

  lemma ReplayedCounts(cfg: Config, file: seq<Event>, run: seq<Step>, more: seq<Step>, e: Event)
    requires Exec(cfg, Boot(file), run).Some? && Empties(cfg, Exec(cfg, Boot(file), run).value, more)
    requires e in Exec(cfg, Boot(file), run).value.file
    ensures Exec(cfg, Boot(file), run + more).Some?
    ensures TimesReplayed(Exec(cfg, Boot(file), run + more).value.removed, e) > 0
  {
    var s := Exec(cfg, Boot(file), run).value;
    ExecAppend(cfg, Boot(file), run, more);
    RemovedMore(s.removed, Replays(s.file), e);
    ReplaysCount(s.file, e);
    assert e in multiset(s.file);
  }

  // A reachable buffer can be emptied by replay if and only if every event in it can be
  // read back from the file and has a way to the broker.
  lemma CanDrainIff(cfg: Config, file: seq<Event>, run: seq<Step>)
    requires Exec(cfg, Boot(file), run).Some?
    requires var s := Exec(cfg, Boot(file), run).value; s.up && s.holder.Free? && s.file != []
    ensures var s := Exec(cfg, Boot(file), run).value;
            (exists more :: Empties(cfg, s, more)) <==> AllDeliverable(cfg, s.file)
  {
    var s := Exec(cfg, Boot(file), run).value;
    if AllDeliverable(cfg, s.file) {
      var more := CanDrain(cfg, s);
      assert Empties(cfg, s, more);
    }
    if more :| Empties(cfg, s, more) {
      EmptiedWasDeliverable(cfg, file, run, more);
    }
  }

  lemma EmptiedWasDeliverable(cfg: Config, file: seq<Event>, run: seq<Step>, more: seq<Step>)
    requires Exec(cfg, Boot(file), run).Some? && Exec(cfg, Boot(file), run).value.file != []
    requires Empties(cfg, Exec(cfg, Boot(file), run).value, more)
    ensures AllDeliverable(cfg, Exec(cfg, Boot(file), run).value.file)
  {
    var s := Exec(cfg, Boot(file), run).value;
    forall k | 0 <= k < |s.file|
      ensures Deliverable(cfg, s.file[k])
    {
      var e := s.file[k];
      BootKeeps(cfg, file, e);
      RunKeeps(cfg, Boot(file), run, e);
      if !Readable(s) {
        FrozenRun(cfg, s, more);
      }
      if !Routable(cfg, e) {
        ReplayedCounts(cfg, file, run, more, e);
        RejectedStays(cfg, file, run + more, e);
      }
    }
  }
}
