// The inference sidecar under concurrent requests (inference/server.py). /score takes
// one snapshot of `_state` and, later, one of `_shadow`, and never takes the state
// lock; /reload, /shadow/load and /shadow/unload hold it from start to end.
//
// Every bundle has the feature list of the one the sidecar booted with.
module Sidecar {
  import opened Wrappers
  import opened Tallies
  import opened Tensors
  import Rounding
  import Scoring

  datatype Model = Model(bundle: Scoring.Bundle, version: string)

  // A reading scored by `model`, the champion of its request, and by the shadow.
  datatype Observation = Observation(x: Row, model: Model, champion: Scoring.Score, shadow: Scoring.Score)

  // `champion` is what the tracker reports; `reigning`, `earlier` and `inFlight` record
  // the moment it was installed: the live model, the /score requests then holding another
  // one, and all /score requests then in flight.
  datatype Tracker = Tracker(
    shadow: Model, champion: string, seen: seq<Observation>, errors: nat,
    reigning: Model, earlier: nat, inFlight: nat)

  // A /score request.
  datatype Scorer =
    | Arrived(x: Row)
    | Snapped(x: Row, model: Model)
    | Scored(x: Row, model: Model, score: Scoring.Score)  // and in the drift window
    | HasShadow(x: Row, model: Model, score: Scoring.Score, tracker: nat)
    | Answering(x: Row, score: Scoring.Score)
    | Answered(x: Row, response: Option<Scoring.Score>)   // None is an internal error

  datatype ReloadReply = Kept(version: string) | Reloaded(was: string, now: string)

  datatype Reload =
    | Asked
    | Locked
    | Loaded(new': Model)
    | Swapped(was: Model, new': Model)    // `_state` is new
    | Reset(was: Model, new': Model)      // the drift window is new
    | Done(reply: ReloadReply)

  datatype ShadowRequest = AskedLoad | AskedUnload | LockedLoad | LockedUnload | Replied(ok: bool)

  datatype Lock = Free | ByReload(j: nat) | ByShadow(j: nat)

  datatype Drift = Drift(mean: Row, scale: Row, readings: seq<Row>)

  datatype State = State(
    live: Model,
    drift: Drift,
    shadow: Option<nat>, trackers: seq<Tracker>,
    lock: Lock,
    scorers: seq<Scorer>, reloads: seq<Reload>, shadows: seq<ShadowRequest>)

  function Boot(m: Model): State {
    State(m, Drift(m.bundle.mean, m.bundle.scale, []), None, [], Free, [], [], [])
  }

  datatype Step =
    | Arrive(x: Row)
    | Snap(i: nat)
    | Score(i: nat)
    | TakeShadow(i: nat)
    | ShadowScore(i: nat)
    | Answer(i: nat)
    | AskReload
    | LockReload(j: nat)
    | Load(j: nat, found: Option<Model>)   // None: missing, refused or invalid
    | SwapLive(j: nat)
    | ResetDrift(j: nat)
    | SwapTracker(j: nat)
    | AskShadow(load: bool)
    | LockShadow(j: nat)
    | InstallShadow(j: nat, found: Option<Model>)
    | UnloadShadow(j: nat)

  // ----- in flight --------------------------------------------------------------

  function Busy(): Scorer -> nat {
    (p: Scorer) => if p.Answered? then 0 else 1
  }

  // Scored or to be scored by a champion other than `live`, with the shadow
  // snapshot still to come.
  function Earlier(live: Model): Scorer -> nat {
    (p: Scorer) => if (p.Snapped? || p.Scored?) && p.model != live then 1 else 0
  }

  function NewTracker(s: State, shadow: Model): Tracker {
    Tracker(shadow, s.live.version, [], 0, s.live, Total(Earlier(s.live), s.scorers), Total(Busy(), s.scorers))
  }

  function Install(s: State, shadow: Model): State {
    s.(shadow := Some(|s.trackers|), trackers := s.trackers + [NewTracker(s, shadow)])
  }

  // The shadow scores the reading too: one more comparison, or one more error.
  function Compared(act: Scoring.Activation, t: Tracker, x: Row, model: Model, score: Scoring.Score): Tracker {
    var r := Scoring.ScoreSample(act, t.shadow.bundle, x);
    if r.None? then t.(errors := t.errors + 1)
    else t.(seen := t.seen + [Observation(x, model, score, r.value)])
  }

  // The response carries the score to five decimals.
  function Response(score: Scoring.Score): Scoring.Score {
    score.(score := Rounding.Rounded(score.score, 100000))
  }

  // ----- steps --------------------------------------------------------------------

  function ScoreStep(act: Scoring.Activation, s: State, step: Step): Option<State> {
    match step
    case Arrive(x) => Some(s.(scorers := s.scorers + [Arrived(x)]))
    case Snap(i) =>
      if i < |s.scorers| && s.scorers[i].Arrived?
      then Some(s.(scorers := s.scorers[i := Snapped(s.scorers[i].x, s.live)])) else None
    case Score(i) =>
      if i < |s.scorers| && s.scorers[i].Snapped?
      then
        var Snapped(x, model) := s.scorers[i];
        var r := Scoring.ScoreSample(act, model.bundle, x);
        if r.None? then Some(s.(scorers := s.scorers[i := Answered(x, None)]))
        else Some(s.(scorers := s.scorers[i := Scored(x, model, r.value)],
                     drift := s.drift.(readings := s.drift.readings + [x])))
      else None
    case TakeShadow(i) =>
      if i < |s.scorers| && s.scorers[i].Scored?
      then
        var Scored(x, model, score) := s.scorers[i];
        var next := if s.shadow.None? then Answering(x, score) else HasShadow(x, model, score, s.shadow.value);
        Some(s.(scorers := s.scorers[i := next]))
      else None
    case ShadowScore(i) =>
      if i < |s.scorers| && s.scorers[i].HasShadow? && s.scorers[i].tracker < |s.trackers|
      then
        var HasShadow(x, model, score, k) := s.scorers[i];
        Some(s.(scorers := s.scorers[i := Answering(x, score)],
                trackers := s.trackers[k := Compared(act, s.trackers[k], x, model, score)]))
      else None
    case Answer(i) =>
      if i < |s.scorers| && s.scorers[i].Answering?
      then Some(s.(scorers := s.scorers[i := Answered(s.scorers[i].x, Some(Response(s.scorers[i].score)))])) else None
    case _ => None
  }

  function ReloadStep(s: State, step: Step): Option<State> {
    match step
    case AskReload => Some(s.(reloads := s.reloads + [Asked]))
    case LockReload(j) =>
      if j < |s.reloads| && s.reloads[j].Asked? && s.lock.Free?
      then Some(s.(reloads := s.reloads[j := Locked], lock := ByReload(j))) else None
    case Load(j, found) =>
      if j < |s.reloads| && s.reloads[j].Locked?
      then
        if found.None? then Some(s.(reloads := s.reloads[j := Done(Kept(s.live.version))], lock := Free))
        else Some(s.(reloads := s.reloads[j := Loaded(found.value)]))
      else None
    case SwapLive(j) =>
      if j < |s.reloads| && s.reloads[j].Loaded?
      then
        var m := s.reloads[j].new';
        Some(s.(reloads := s.reloads[j := Swapped(s.live, m)], live := m))
      else None
    case ResetDrift(j) =>
      if j < |s.reloads| && s.reloads[j].Swapped?
      then
        var Swapped(was, m) := s.reloads[j];
        Some(s.(reloads := s.reloads[j := Reset(was, m)], drift := Drift(m.bundle.mean, m.bundle.scale, [])))
      else None
    case SwapTracker(j) =>
      if j < |s.reloads| && s.reloads[j].Reset?
      then
        var Reset(was, m) := s.reloads[j];
        var t := if s.shadow.Some? && s.shadow.value < |s.trackers|
                 then Install(s, s.trackers[s.shadow.value].shadow) else s;
        Some(t.(reloads := s.reloads[j := Done(Reloaded(was.version, m.version))], lock := Free))
      else None
    case _ => None
  }

  function ShadowStep(s: State, step: Step): Option<State> {
    match step
    case AskShadow(load) => Some(s.(shadows := s.shadows + [if load then AskedLoad else AskedUnload]))
    case LockShadow(j) =>
      if j < |s.shadows| && s.lock.Free? && s.shadows[j].AskedLoad?
      then Some(s.(shadows := s.shadows[j := LockedLoad], lock := ByShadow(j)))
      else if j < |s.shadows| && s.lock.Free? && s.shadows[j].AskedUnload?
      then Some(s.(shadows := s.shadows[j := LockedUnload], lock := ByShadow(j)))
      else None
    case InstallShadow(j, found) =>
      if j < |s.shadows| && s.shadows[j].LockedLoad?
      then
        var t := if found.None? then s else Install(s, found.value);
        Some(t.(shadows := s.shadows[j := Replied(found.Some?)], lock := Free))
      else None
    case UnloadShadow(j) =>
      if j < |s.shadows| && s.shadows[j].LockedUnload?
      then Some(s.(shadows := s.shadows[j := Replied(s.shadow.Some?)], lock := Free, shadow := None))
      else None
    case _ => None
  }

  function Next(act: Scoring.Activation, s: State, step: Step): Option<State> {
    if step.AskReload? || step.LockReload? || step.Load? || step.SwapLive? || step.ResetDrift? || step.SwapTracker?
    then ReloadStep(s, step)
    else if step.AskShadow? || step.LockShadow? || step.InstallShadow? || step.UnloadShadow?
    then ShadowStep(s, step)
    else ScoreStep(act, s, step)
  }

  function Exec(act: Scoring.Activation, s: State, run: seq<Step>): Option<State>
    decreases |run|
  {
    if run == [] then Some(s)
    else
      var t := Next(act, s, run[0]);
      if t.None? then None else Exec(act, t.value, run[1..])
  }
}
