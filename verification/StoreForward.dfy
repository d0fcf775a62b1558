// The store-and-forward protocol: the agent's handlers and flushes, its disk
// buffer, the uplink, the CoAP receiver and the broker, as atomic steps that
// interleave in any order (edge-agent/main.go, buffer.go, uplink.go, coap.go,
// coap-receiver/handler.go).
//
// Publishing does not take the buffer's lock; Add and DrainTo hold it from their
// first read to the end of their write.
module StoreForward {
  import opened Wrappers
  import opened Events
  import opened Fifo
  import opened Topics
  import JsonLines
  import Receiver

  datatype Transport = Mqtt(layout: Layout) | Coap

  // `carries` is what the limits of the client libraries and of the broker let through:
  // sizes of packets and datagrams, access control.
  datatype Config = Config(transport: Transport, max: nat, carries: Event -> bool)

  // The topic the broker gets an event under. The receiver knows the flat layout only.
  function TopicOf(cfg: Config, ev: Event): string {
    EventTopic(if cfg.transport.Mqtt? then cfg.transport.layout else Flat, ev.machineId)
  }

  // There is a way to the broker: the receiver takes it, and the topic is one that a
  // broker may accept. The agent itself checks nothing.
  predicate Routable(cfg: Config, ev: Event) {
    (cfg.transport.Coap? ==> Receiver.Acceptable(ev)) && LegalTopic(TopicOf(cfg, ev)) && cfg.carries(ev)
  }

  // Where one publish request is.
  datatype Phase =
    | NotSent       // its caller has not yet looked at the link state
    | OnWire        // on its way to the receiver (CoAP) or to the broker (MQTT)
    | AtReceiver    // accepted by the receiver, not yet logged by the broker
    | AtBroker      // logged by the broker, which has not yet acknowledged it
    | Reply(code: Receiver.Code, stored: bool)  // the answer is on its way back

  // The broker has logged the request.
  predicate Stored(at: Phase) {
    at.AtBroker? || (at.Reply? && at.stored)
  }

  datatype Proc =
    | Sending(ev: Event, at: Phase)  // a handler inside Publish
    | Failed(ev: Event)              // a handler whose publish failed, about to Add
    | Stray(ev: Event, at: Phase)    // a request that nobody waits for any more
    | Finished

  // A write in progress inside the lock.
  datatype Progress = Start | Lines(n: nat) | Closed

  datatype Job =
    | AddJob(ev: Event)
    | DrainJob(all: seq<Event>, done: nat)   // all[..done] have been replayed

  // Who holds the buffer's lock, and where it is.
  datatype Holder =
    | Free
    | Adding(ev: Event)
    | Draining(evs: seq<Event>, i: nat, at: Phase)  // evs[..i] replayed, evs[i] being published
    | Writing(job: Job, evs: seq<Event>, progress: Progress)

  datatype State = State(
    up: bool,
    procs: seq<Proc>,
    holder: Holder,
    file: seq<Event>,
    temp: Option<seq<Event>>,
    broker: seq<Event>,
    // what has happened so far
    arrived: multiset<Event>,      // reached publishEvent
    ackedLive: multiset<Event>,    // published by their handler
    log: seq<Event>,               // accepted by Add, oldest first
    removed: seq<Removal<Event>>,  // left the buffer, oldest first
    lostAdd: multiset<Event>,      // Add failed
    lostCrash: multiset<Event>,    // in a handler when the agent died
    phantom: multiset<Event>,      // logged by the broker for a publish that did not succeed
    redelivered: multiset<Event>)  // replayed, but not removed from the file afterwards

  // An agent that starts on a buffer file left by an earlier life.
  function Boot(file: seq<Event>): State {
    State(false, [], Free, file, None, [],
          multiset(file), multiset{}, file, [], multiset{}, multiset{}, multiset{}, multiset{})
  }

  // ----- requests ---------------------------------------------------------

  datatype Who = P(i: nat) | D

  datatype Move = Send | Receive | Busy | Store | Ack | ReceiverTimeout

  function Request(s: State, who: Who): Option<(Event, Phase)> {
    match who
    case P(i) =>
      if i < |s.procs| && (s.procs[i].Sending? || s.procs[i].Stray?)
      then Some((s.procs[i].ev, s.procs[i].at)) else None
    case D =>
      if s.holder.Draining? && s.holder.i < |s.holder.evs|
      then Some((s.holder.evs[s.holder.i], s.holder.at)) else None
  }

  function Put(s: State, who: Who, at: Phase): State
    requires Request(s, who).Some?
  {
    match who
    case P(i) => s.(procs := s.procs[i := s.procs[i].(at := at)])
    case D => s.(holder := s.holder.(at := at))
  }

  predicate IsStray(s: State, who: Who) {
    who.P? && who.i < |s.procs| && s.procs[who.i].Stray?
  }

  // One hop of a request. Without a receiver the broker is the next hop.
  function Hop(cfg: Config, up: bool, ev: Event, at: Phase, m: Move): Option<Phase> {
    match m
    case Send => if at.NotSent? && up then Some(OnWire) else None
    case Receive =>
      if cfg.transport.Coap? && at.OnWire?
      then Some(if Receiver.Acceptable(ev) then AtReceiver else Reply(Receiver.BAD_REQUEST, false))
      else None
    case Busy =>
      if cfg.transport.Coap? && at.OnWire? && Receiver.Acceptable(ev)
      then Some(Reply(Receiver.SERVICE_UNAVAILABLE, false)) else None
    case Store =>
      if (at.AtReceiver? || (cfg.transport.Mqtt? && at.OnWire?)) && Routable(cfg, ev) then Some(AtBroker) else None
    case Ack => if at.AtBroker? then Some(Reply(Receiver.CHANGED, true)) else None
    case ReceiverTimeout =>
      if cfg.transport.Coap? && (at.AtReceiver? || at.AtBroker?)
      then Some(Reply(Receiver.SERVICE_UNAVAILABLE, at.AtBroker?)) else None
  }

  // The receiver's own wait can expire before the broker logs the message, which
  // its MQTT client then still delivers on its own.
  function Leftover(ev: Event, at: Phase, m: Move): seq<Proc> {
    if m.ReceiverTimeout? && at.AtReceiver? then [Stray(ev, AtReceiver)] else []
  }

  function Advance(cfg: Config, s: State, who: Who, m: Move): Option<State> {
    var r := Request(s, who);
    if r.None? then None
    else
      var (ev, at) := r.value;
      var at' := Hop(cfg, s.up, ev, at, m);
      if at'.None? then None
      else
        var t := Put(s, who, at'.value);
        Some(t.(procs := t.procs + Leftover(ev, at, m),
                broker := if m.Store? then t.broker + [ev] else t.broker,
                phantom := if m.Store? && IsStray(s, who) then t.phantom + multiset{ev} else t.phantom))
  }

  // ----- the publish call returns ------------------------------------------

  // Unanswered: the call fails after it was sent. Its wait expired, or its connection or
  // socket was closed meanwhile.
  datatype Return = Answered | Refused | Unanswered

  // Whether the call can return this way, and if so whether it succeeds.
  function Verdict(up: bool, at: Phase, r: Return): Option<bool> {
    match r
    case Answered => if at.Reply? then Some(Receiver.IsSuccess(at.code)) else None
    case Refused => if at.NotSent? && !up then Some(false) else None
    case Unanswered => if at.NotSent? then None else Some(false)
  }

  function Resume(s: State, who: Who, ok: bool): State
    requires Request(s, who).Some? && !IsStray(s, who)
  {
    match who
    case P(i) =>
      var ev := s.procs[i].ev;
      if ok then s.(procs := s.procs[i := Finished], ackedLive := s.ackedLive + multiset{ev})
      else s.(procs := s.procs[i := Failed(ev)])
    case D =>
      var Draining(evs, i, _) := s.holder;
      if ok then s.(holder := Draining(evs, i + 1, NotSent))
      else s.(holder := Writing(DrainJob(evs, i), evs[i..], Start))
  }

  // A request whose caller got no answer stays in the network; one that the broker has
  // logged without the caller knowing is a phantom.
  function Settle(t: State, ev: Event, at: Phase, ok: bool, r: Return): State {
    t.(procs := t.procs + (if r.Unanswered? then [Stray(ev, at)] else []),
       phantom := if !ok && Stored(at) then t.phantom + multiset{ev} else t.phantom)
  }

  function Leave(s: State, who: Who, r: Return): Option<State> {
    var q := Request(s, who);
    if q.None? || IsStray(s, who) then None
    else
      var (ev, at) := q.value;
      var ok := Verdict(s.up, at, r);
      if ok.None? then None
      else
        Some(Settle(Resume(s, who, ok.value), ev, at, ok.value, r))
  }

  // ----- the buffer ---------------------------------------------------------

  datatype DiskStep =
    | AddStart(i: nat) | AddReadFails | AddRead   // a drain whose read fails does nothing
    | DrainStart | DrainEnd
    | Create | WriteLine | CloseTemp | Rename | Remove
    | WriteFails(tempLeft: bool)

  // The lock is released with the new content in place.
  function Commit(cfg: Config, s: State, file: seq<Event>, temp: Option<seq<Event>>): State
    requires s.holder.Writing?
    requires s.holder.job.DrainJob? ==> s.holder.job.done <= |s.holder.job.all|
  {
    var t := s.(holder := Free, file := file, temp := temp);
    match s.holder.job
    case AddJob(ev) =>
      var grown := s.file + [ev];
      t.(log := s.log + [ev],
         removed := s.removed + Evictions(grown[..Overflow(grown, cfg.max)]))
    case DrainJob(all, done) => t.(removed := s.removed + Replays(all[..done]))
  }

  // The lock is released with the old content still in place.
  function Abort(s: State, tempLeft: bool): State
    requires s.holder.Writing?
    requires s.holder.job.DrainJob? ==> s.holder.job.done <= |s.holder.job.all|
  {
    var t := s.(holder := Free, temp := if tempLeft then s.temp else None);
    match s.holder.job
    case AddJob(ev) => t.(lostAdd := s.lostAdd + multiset{ev})
    case DrainJob(all, done) => t.(redelivered := s.redelivered + multiset(all[..done]))
  }

  predicate JobFits(h: Holder) {
    h.Writing? && h.job.DrainJob? ==> h.job.done <= |h.job.all|
  }

  function BeginAdd(s: State, i: nat): Option<State> {
    if s.holder.Free? && i < |s.procs| && s.procs[i].Failed?
    then Some(s.(holder := Adding(s.procs[i].ev), procs := s.procs[i := Finished])) else None
  }

  function FailAdd(s: State): Option<State> {
    if s.holder.Adding?
    then Some(s.(holder := Free, lostAdd := s.lostAdd + multiset{s.holder.ev})) else None
  }

  // The scanner gives up on the whole file at a line that does not fit its buffer.
  predicate Readable(s: State) {
    JsonLines.AllFit(s.file)
  }

  function ReadForAdd(cfg: Config, s: State): Option<State> {
    if s.holder.Adding? && Readable(s)
    then Some(s.(holder := Writing(AddJob(s.holder.ev), Capped(s.file + [s.holder.ev], cfg.max), Start)))
    else None
  }

  function BeginDrain(s: State): Option<State> {
    if s.holder.Free? && s.file != [] && Readable(s)
    then Some(s.(holder := Draining(s.file, 0, NotSent))) else None
  }

  function EndDrain(s: State): Option<State> {
    if s.holder.Draining? && s.holder.i == |s.holder.evs|
    then Some(s.(holder := Writing(DrainJob(s.holder.evs, s.holder.i), [], Start))) else None
  }

  function CreateTemp(s: State): Option<State> {
    if s.holder.Writing? && s.holder.progress.Start? && s.holder.evs != []
    then Some(s.(temp := Some([]), holder := s.holder.(progress := Lines(0)))) else None
  }

  function AppendLine(s: State): Option<State> {
    if s.holder.Writing? && s.holder.progress.Lines? && s.temp.Some? && s.holder.progress.n < |s.holder.evs|
    then
      var n := s.holder.progress.n;
      Some(s.(temp := Some(s.temp.value + [s.holder.evs[n]]), holder := s.holder.(progress := Lines(n + 1))))
    else None
  }

  function FinishTemp(s: State): Option<State> {
    if s.holder.Writing? && s.holder.progress.Lines? && s.holder.progress.n == |s.holder.evs|
    then Some(s.(holder := s.holder.(progress := Closed))) else None
  }

  function RenameTemp(cfg: Config, s: State): Option<State> {
    if s.holder.Writing? && s.holder.progress.Closed? && s.temp.Some? && JobFits(s.holder)
    then Some(Commit(cfg, s, s.temp.value, None)) else None
  }

  function RemoveFile(cfg: Config, s: State): Option<State> {
    if s.holder.Writing? && s.holder.progress.Start? && s.holder.evs == [] && JobFits(s.holder)
    then Some(Commit(cfg, s, [], s.temp)) else None
  }

  function FailWrite(s: State, left: bool): Option<State> {
    if s.holder.Writing? && JobFits(s.holder) then Some(Abort(s, left)) else None
  }

  function Disk(cfg: Config, s: State, d: DiskStep): Option<State> {
    match d
    case AddStart(i) => BeginAdd(s, i)
    case AddReadFails => FailAdd(s)
    case AddRead => ReadForAdd(cfg, s)
    case DrainStart => BeginDrain(s)
    case DrainEnd => EndDrain(s)
    case Create => CreateTemp(s)
    case WriteLine => AppendLine(s)
    case CloseTemp => FinishTemp(s)
    case Rename => RenameTemp(cfg, s)
    case Remove => RemoveFile(cfg, s)
    case WriteFails(left) => FailWrite(s, left)
  }

  // ----- the agent dies -----------------------------------------------------

  function Orphan(p: Proc): Proc {
    match p
    case Sending(ev, at) => if at.NotSent? then Finished else Stray(ev, at)
    case Failed(_) => Finished
    case _ => p
  }

  function Orphans(ps: seq<Proc>): (r: seq<Proc>)
    ensures |r| == |ps|
  {
    if ps == [] then [] else [Orphan(ps[0])] + Orphans(ps[1..])
  }

  // The drain's own request, left in the network.
  function DrainOrphan(h: Holder): seq<Proc> {
    if h.Draining? && h.i < |h.evs| && !h.at.NotSent? then [Stray(h.evs[h.i], h.at)] else []
  }

  // The event a process still owns.
  function Held(p: Proc): multiset<Event> {
    if p.Sending? || p.Failed? then multiset{p.ev} else multiset{}
  }

  // An event the broker has logged for a handler that does not know it yet.
  function Pending(p: Proc): multiset<Event> {
    if p.Sending? && Stored(p.at) then multiset{p.ev} else multiset{}
  }

  function All(f: Proc -> multiset<Event>, ps: seq<Proc>): multiset<Event> {
    if ps == [] then multiset{} else f(ps[0]) + All(f, ps[1..])
  }

  function HeldByLock(h: Holder): multiset<Event> {
    match h
    case Adding(ev) => multiset{ev}
    case Writing(AddJob(ev), _, _) => multiset{ev}
    case _ => multiset{}
  }

  // Events of the file that the running drain has replayed.
  function Replaying(h: Holder): multiset<Event> {
    match h
    case Draining(evs, i, _) => if i <= |evs| then multiset(evs[..i]) else multiset{}
    case Writing(DrainJob(all, done), _, _) => if done <= |all| then multiset(all[..done]) else multiset{}
    case _ => multiset{}
  }

  function PendingRequest(h: Holder): multiset<Event> {
    if h.Draining? && h.i < |h.evs| && Stored(h.at) then multiset{h.evs[h.i]} else multiset{}
  }

  // Handlers and the drain are gone; the disk and the network are not.
  function Crash(s: State): State {
    s.(up := false, holder := Free,
       procs := Orphans(s.procs) + DrainOrphan(s.holder),
       lostCrash := s.lostCrash + All(Held, s.procs) + HeldByLock(s.holder),
       phantom := s.phantom + All(Pending, s.procs) + PendingRequest(s.holder),
       redelivered := s.redelivered + Replaying(s.holder))
  }

  // ----- runs ---------------------------------------------------------------

  datatype Step =
    | Link(up: bool)
    | Arrive(ev: Event)
    | Network(who: Who, m: Move)
    | Return(who: Who, r: Return)
    | Discard(i: nat)          // the network loses a stray request
    | Buffer(d: DiskStep)
    | Die

  function Next(cfg: Config, s: State, step: Step): Option<State> {
    match step
    case Link(up) => Some(s.(up := up))
    case Arrive(ev) =>
      Some(s.(procs := s.procs + [Sending(ev, NotSent)], arrived := s.arrived + multiset{ev}))
    case Network(who, m) => Advance(cfg, s, who, m)
    case Return(who, r) => Leave(s, who, r)
    case Discard(i) =>
      if i < |s.procs| && s.procs[i].Stray? then Some(s.(procs := s.procs[i := Finished])) else None
    case Buffer(d) => Disk(cfg, s, d)
    case Die => Some(Crash(s))
  }

  // No publish fails after it was sent, be it the agent's or the receiver's, no rewrite
  // of the file fails, and the agent does not die.
  predicate Quiet(step: Step) {
    && !step.Die?
    && !(step.Return? && step.r.Unanswered?)
    && !(step.Network? && step.m.ReceiverTimeout?)
    && !(step.Buffer? && step.d.WriteFails?)
  }

  predicate QuietRun(run: seq<Step>) {
    forall i :: 0 <= i < |run| ==> Quiet(run[i])
  }

  // The state after a run, if every step of it was possible.
  function Exec(cfg: Config, s: State, run: seq<Step>): Option<State>
    decreases |run|
  {
    if run == [] then Some(s)
    else
      var t := Next(cfg, s, run[0]);
      if t.None? then None else Exec(cfg, t.value, run[1..])
  }
}
