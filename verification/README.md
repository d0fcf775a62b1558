# EdgeSense, verified

A Dafny model of the parts of EdgeSense that have to be right when things go wrong, with proofs of
what they promise. `dafny verify dfyconfig.toml` checks everything.

Five parts are modelled.

**Store and forward** (`Events`, `NumberGrammar`, `Utf8`, `Topics`, `Receiver*`, `Fifo`, `StoreForward*`, `Json*`,
`EventBuffer`, `Coap*`). The Go agent publishes anomaly events over MQTT or CoAP and spools to a JSON Lines file what
it cannot publish. `StoreForward` is a state machine over handlers, the lock holder, the file and its temporary
sibling, the link, the receiver and the broker's log. Every step is atomic, steps interleave freely, and publishes
fail after being sent, disks fail and the agent dies at any point. `StoreForwardProofs`, `StoreForwardTheorems`,
`StoreForwardCapacity`, `StoreForwardReplies` and `StoreForwardTemp` say what every run keeps, `StoreForwardProgress`
what can still happen from a state and when nothing more can, `StoreForwardOnce` when delivery is exactly once.
`EventBuffer` is the buffer itself as a class over a disk whose every call may fail, down to the text of the file;
`CoapLink` is the uplink's connection state, as a class and under all interleavings, `CoapSteps` that the two agree.

**Scoring and its compiler** (`Tensors`, `Scoring`, `Layers`, `Onnx*`). The autoencoder scorer over exact reals with
NumPy's shape rules, the laws of its products, the sidecar's shape check, and the ONNX exporter as a compiler from
bundles to lists of named nodes, with an interpreter for the nodes. The interpreter gets stuck on a name that is
assigned twice or used before it is assigned. The activation is a parameter throughout.

**The sidecar under concurrent requests** (`Sidecar*`, `ShadowTracking`, `Drift*`, `Rounding`). Each `/score`,
`/reload` and shadow request has its own program counter; scoring takes no lock. `SidecarProofs` bounds how far shadow
evidence can mix champions, `SidecarMixing` says exactly when it does, `SidecarIsolation` that a shadow changes no
answer, `SidecarAnswers` whose verdict an answer is, `SidecarShadow` which model is shadowed and what a tracker holds,
`SidecarReloads` what a reload leaves behind, `SidecarLock` who holds the state lock. The tracker and the drift ring
are classes; `DriftMeaning` says what the drift signals measure.

**Signed saves** (`Signing*`). Every intermediate and crashed state of the model directory, and the verdict of
verification on it, with an ideal hash and ideal Ed25519 signatures (RFC 8032, section 5.1). `SigningReader`
interleaves a node's separate reads with the operations of saves.

**The promotion gate and the arithmetic under it** (`Simulator`, `Sorting`, `Evaluation`, `Gate*`, `Calibration*`,
`Windows*`). The simulated machine and its fault episodes, episode counting and percentiles, the gate's decision and
what the champion keeps over any sequence of runs, threshold calibration by quantile, and the reduction of raw
recordings to readings.

Random draws, clocks, the network and disk errors are parameters or nondeterministic choices. The logarithm, the
normal distribution function, the square root, the activation and the training routine are function parameters; the
facts about them that a proof needs are stated where they are used.

## Findings

Where the code and its documentation disagree, the model follows the code. These are the places where
a promise does not hold, or holds under a condition.

- The repository's `README.md:52-53` promises that events replay exactly once. What holds is an exact count
  (`DeliveryCount`) and, for a settled event, an exact condition on the steps of the run (`DeliveredAsArrivedIff`,
  `ExactlyOnceIff`). Where no publish fails after being sent, no rewrite fails and the agent does not crash, the
  promise is kept (`QuietMeansOnce`); one of these is enough to break it (`TwiceByNoAnswer`, `TwiceByReceiver`,
  `TwiceByRewrite`, `TwiceByCrash`).
- `docs/MLOPS.md:182-184` promises that shadow evidence is always per champion. It is exactly when no request
  between its two snapshots held another model as the tracker was installed (`InstalledPerChampionIff`);
  otherwise each such request can bring one foreign reading (`LateReading`, `BoundAttained`, `MixedEvidence`)
  and no more come (`BoundedMixing`).
- `write` does not check the limit that `read` has on the length of a line. A line that does not fit makes the
  file unreadable for good: no `Add` or `DrainTo` ever succeeds again (`FrozenForever`, `ReadBack`), one outage
  is enough to get there (`CanFreeze`).
- An event without a way to the broker stays in the buffer until it is evicted, and no drain gets past it
  (`RejectedStays`, `RejectedBlocks`); a buffer can be emptied exactly when it holds no such event and no line
  that does not fit (`CanDrainIff`). Over CoAP the receiver answers 4.00 to an unsafe machine id. Over MQTT nobody
  checks: the agent puts the id into the topic as it stands (`edge-agent/topics.go:38-43`), and one with a wildcard
  or U+0000, or too long a one, makes a topic no broker may accept (`EventTopicIff`).
- `edge-agent/topics.go:54-58` promises that no layout is mis-parsed. A machine is found again from its sensor topic
  exactly when its id holds no slash (`FlatMachineIff`, `NamespacedMachineIff`), which the agent does not check.
- A late report on a socket that is already gone closes nothing, but it does take a newer, healthy link
  down until the next probe (`StaleReportClosesNothing`, `StaleReportTakesLinkDown`).
- A refused run writes a model, a manifest, a model card and a report to the candidate directory
  (`RefusalKeepsChampion`). If that is the champion's directory, under whatever path, the champion loses its card
  at least, and its model if it has the candidates' name (`AllKeptIff`); what a champion keeps over many runs
  depends on its own file alone (`BarKeptIff`, `DriftKeptIff`). Comparing the texts is not enough: the champion's
  default path is absolute (`ml/train.py:36`), and a relative `--out-dir` can lead to the same directory.
- `inference/server.py:165-170` reads an artifact twice, to hash it and to load it. A save in between makes a node,
  even one that requires signatures, load other bytes than it verified (`LoadsWhatItHashedIff`, `LoadsUnsigned`).
- `Close` does not wait for the probe loop: unless that was waiting for its next tick, the link can come up again
  after it (`StaysDownIff`).
- An agreement rate is rounded before it is reported and gated: 1.0 means at most one disagreement in
  200,000, and the 95% bar lets through 94.9995% (`ReportMeans`, `EvidenceMeans`).
- The comment at `ml/rotating.py:305-306` says that pooling the phases would understate the current.
  Pooling never gives less than averaging their RMS does (`AveragedAtMostPooled`).
- An overheat episode of 80 ticks or more, which a control command may ask for, starts out at or below
  the normal temperature (`OverheatHeats`).
- With the default bar, two of the three comparisons with the champion can never refuse a challenger that
  clears the bar (`OnlyFalseAlarmsRefuse`).

## Model

| member | source | states |
|---|---|---|
| StoreForwardTheorems.NoLoss | edge-agent/main.go:103-165 | in every reachable state, with crashes, disk errors and lost acks, the arrivals of an event are exactly those acked, replayed, in the file, with a handler, evicted, lost by a failed Add or lost in a handler at a crash |
| StoreForwardTheorems.DeliveryCount | edge-agent/buffer.go:65-73 | the broker has an event exactly as often as its final successes plus failed-but-delivered publishes plus replays whose rewrite did not happen plus messages in flight |
| StoreForwardTheorems.AtMostOnce | edge-agent/uplink.go:109-126 | deliveries exceed arrivals by at most the failed-but-delivered publishes and the repeated replays |
| StoreForwardOnce.DeliveredAsArrivedIff | edge-agent/buffer.go:55-74 | a settled event, none of it lost or evicted, is delivered at least as often as it arrived; exactly as often if and only if the run has no step of four kinds: a publish of it that fails after the broker has it, a message of it stored after its caller got no answer, a rewrite that fails after its replay, a crash while a delivery of it is unconfirmed |
| StoreForwardOnce.ExactlyOnceIff | edge-agent/buffer.go:55-74 | for one arrival: exactly once, under the same condition |
| StoreForwardTheorems.FlightHasOwner | edge-agent/main.go:103-121 | every message in flight belongs to an event still in the file or with a handler |
| StoreForwardReplies.RepliesHonest | coap-receiver/handler.go:68-114 | for every request of every reachable state: a success answer means the broker has the event, 4.00 goes exactly to events the receiver cannot take, without a receiver there is no other answer than success |
| StoreForwardReplies.SendsWhenUp | edge-agent/uplink.go:109-126 | a handler sends its event only while the link is up, and gives it to the buffer unsent only while it is down |
| StoreForwardReplies.DrainSendsWhenUp | edge-agent/buffer.go:65-72 | so does a drain, which stops there with what it has not replayed |
| StoreForwardReplies.CrashLeavesRequests | edge-agent/main.go:153-165 | the requests that travel after a crash are exactly those that travelled before it, with nobody waiting for them |
| StoreForwardTemp.NoLitter | edge-agent/buffer.go:117-131 | over every run without a crash or a failing cleanup no temporary file outlives its write, and what a rename puts in place is complete |
| StoreForwardTheorems.BoundedFifo | edge-agent/buffer.go:30-74 | over every run the log of Adds is what left the buffer, in order, followed by the file, and the file is within capacity |
| StoreForwardCapacity.EveryStep | edge-agent/buffer.go:30-42 | every step from every reachable state either completes an Add, which leaves min(old size + 1, capacity) events, the newest ones in order, and evicts exactly the rest, or logs and evicts nothing |
| StoreForwardCapacity.EvictsOnlyWhenFull | edge-agent/buffer.go:38-40 | an event is evicted only by an Add to a full file, and then it is among the oldest that no longer fit |
| StoreForwardProofs.RunKeeps | edge-agent/buffer.go:30-133 | every interleaving of steps keeps the shape of the lock holder's job and the three accounts: queue, losses, deliveries |
| Topics.EventTopicIff | edge-agent/topics.go:38-43 | the topic made from a machine id, as it stands, is one that MQTT 3.1.1 allows if and only if the id and the layout hold no wildcard and no U+0000 and there is room for all of it |
| Topics.EventTopicText | edge-agent/topics.go:38-43 | the text of an event's topic in either layout |
| Topics.FlatMachineIff | edge-agent/topics.go:59-65 | the machine is found again from a flat topic if and only if its id holds no slash |
| Topics.NamespacedMachineIff | edge-agent/topics.go:59-65 | and from a namespaced one, for an organisation and a site of one level each, whatever follows |
| StoreForwardTheorems.RejectedStays | edge-agent/uplink.go:109-126 | over either transport an event without a way to the broker (the receiver rejects it, its topic is illegal, or it is over a limit of the libraries or the broker) is never delivered and leaves the buffer by eviction only |
| StoreForwardTheorems.RejectedBlocks | edge-agent/buffer.go:65-71 | over either transport no drain gets past such an event while it is in the file |
| StoreForwardProgress.CanDrain | edge-agent/buffer.go:58-74 | from any state with the link up and the lock free, a buffer whose events have a way to the broker and whose lines fit the scanner can be emptied, without a fault, and the broker gets them in order |
| StoreForwardProgress.CanDrainIff | edge-agent/buffer.go:58-74 | from any reachable such state and over either transport, some run empties the buffer by replay if and only if every event in it has a way to the broker and its line fits the scanner |
| StoreForwardProgress.FrozenForever | edge-agent/buffer.go:87-99 | once an event whose line does not fit is in the file, then over every later run, restarts included, the file and what left it never change, and every later arrival is acked live, with a handler, or lost |
| StoreForwardProgress.CanFreeze | edge-agent/buffer.go:103-133 | for every event whose line does not fit, one publish during an outage brings about such a file, without a fault |
| StoreForwardProgress.CanSpool | edge-agent/main.go:153-162 | a handler whose publish failed can spool its event to an empty buffer, whatever the event |
| StoreForwardProgress.CanPublish | edge-agent/main.go:153-164 | with the link up a handler can deliver an event that has a way to the broker, and knows it, without touching the buffer |
| StoreForwardOnce.QuietMeansOnce | edge-agent/buffer.go:55-74 | in a run in which no publish, of the agent or of the receiver, fails after being sent, no rewrite fails and nothing crashes, no event is delivered more often than it arrived, and a settled one exactly as often, through any outages, refusals, evictions and failing reads |
| StoreForwardOnce.TwiceByNoAnswer | edge-agent/uplink.go:114-125 | over either transport, for every event that has a way to the broker and fits the scanner, and a buffer with room for one: a run disturbed by nothing but publishes that fail after being sent (a wait that expires, a socket closed by another report), in which the event arrives once and is delivered twice |
| StoreForwardOnce.TwiceByReceiver | coap-receiver/main.go:73-75 | the same over CoAP with nothing but the receiver's own timeout |
| StoreForwardOnce.TwiceByRewrite | edge-agent/buffer.go:67-73 | the same with nothing but a failing rewrite |
| StoreForwardOnce.TwiceByCrash | edge-agent/buffer.go:65-73 | the same with nothing but a crash between replay and rewrite |
| Receiver.Validate | coap-receiver/handler.go:57-66 | accepts exactly the machine ids that form one MQTT topic level |
| Receiver.EventsHandler.Handle | coap-receiver/handler.go:72-114 | each answer exactly when it is due: 2.04 for a well-formed event acked by the broker, 5.03 for one the broker refused, 4.05 for another method, 4.00 for a body that carries no event, 5.00 for one that cannot be written as JSON; every POST ends in exactly one outcome counter |
| ReceiverProofs.CarriedIff | coap-receiver/handler.go:40-55 | which event a body carries: a declared format is decoded by its own decoder alone, without one JSON goes before CBOR, and the id has to be acceptable |
| ReceiverProofs.WantedIff | coap-receiver/handler.go:72-104 | what is republished: the event that a POST carries, if it can be written as JSON |
| ReceiverProofs.DeclaredFormat | coap-receiver/handler.go:42-48 | with a declared format the other decoder does not matter, and an unknown format carries nothing |
| ReceiverProofs.AcceptableIff | coap-receiver/handler.go:57-66 | the accepted ids are exactly those of some characters, all allowed in a topic, without a level separator |
| ReceiverProofs.AcceptedTopic | coap-receiver/handler.go:104-104 | an accepted event goes to a topic that MQTT allows, unless its id is too long for any, and the id is found again in it |
| Fifo.RemovalsSplit | edge-agent/buffer.go:37-40 | what left the queue divides into replays and evictions |
| Fifo.AppendKeepsNewest | edge-agent/buffer.go:35-40 | an append within capacity evicts nothing; one beyond it evicts the oldest, exactly the excess, and the new event stays if there is room for any |
| Json.ValueRoundTrip | edge-agent/buffer.go:121-127 | every object, string and number parses back from its text, whatever follows it |
| Json.PrintOneLine | edge-agent/buffer.go:121-127 | no encoded value contains a line break, whatever its strings contain |
| NumberGrammar.NumberTextIff | edge-agent/buffer.go:94-97 | the number texts are exactly those of the grammar of RFC 8259, section 6 |
| JsonText.PlainIff | edge-agent/buffer.go:121-127 | exactly the control characters, quotes, backslashes and the five characters unsafe in HTML or JavaScript are escaped |
| JsonText.HexEscapes | edge-agent/buffer.go:121-127 | those without a short escape become their code in four hexadecimal digits |
| JsonLines.LineRoundTrip | edge-agent/buffer.go:94-97 | the line of an event is one line and decodes to that event |
| JsonText.LineText | edge-agent/main.go:58-65 | the line of an event, member by member, in the order of the struct, without white space, an empty reason left out |
| JsonText.LastCounts | edge-agent/buffer.go:94-97 | a name that occurs again takes its last value, other names do not matter |
| JsonText.OnlyLookups | edge-agent/buffer.go:94-97 | the order of members and members unknown to the event do not matter |
| JsonText.LinesRead | edge-agent/buffer.go:89-99 | a text is read line by line |
| JsonText.LineSkipped | edge-agent/buffer.go:89-97 | empty lines and lines that are no event are skipped; a carriage return at the end is not part of a line |
| JsonLines.ReadBack | edge-agent/buffer.go:76-100 | what write left reads back as the same list if and only if every line fits the scanner's buffer, and is an error otherwise |
| JsonLines.LongIdDoesNotFit | edge-agent/buffer.go:87-88 | events whose line does not fit exist |
| EventBuffer.PendingIs | edge-agent/buffer.go:76-100 | reading any file gives the events of its lines that hold one, or the error if a line is too long for the scanner |
| EventBuffer.StoredOfFile | edge-agent/buffer.go:103-133 | the file written for a list holds that list, the empty list by a missing file, and the scanner gets through it if and only if every line fits |
| EventBuffer.ScanLines | edge-agent/buffer.go:86-99 | the scanner loop computes the list of events of a text, or the error |
| EventBuffer.EventBuffer.Read | edge-agent/buffer.go:76-100 | without a disk error, the events of the file; the file is untouched |
| EventBuffer.EventBuffer.WriteTemp | edge-agent/buffer.go:117-131 | the temporary file holds the lines of the list, or nothing else has changed |
| EventBuffer.EventBuffer.Write | edge-agent/buffer.go:103-133 | after every system call, at which a process may die, the file is the old one or the new one; it is the new one exactly when no call failed |
| EventBuffer.EventBuffer.Add | edge-agent/buffer.go:30-42 | on any file: succeeds exactly without a disk error on a file the scanner gets through; then min(old size + 1, capacity) events are left, a suffix of the old ones and the new one, the new one last, the excess evicted oldest first, lines that are not events gone; otherwise the new event only is lost |
| EventBuffer.EventBuffer.Len | edge-agent/buffer.go:45-53 | the number of events in the file, or 0 on an error; changes nothing |
| EventBuffer.EventBuffer.DrainTo | edge-agent/buffer.go:58-74 | on any file: publishes in order up to the first failure, removes exactly the published prefix; keeps everything when the rewrite fails, and publishes nothing when the scanner does not get through the file; reports success, and leaves nothing, exactly when the file is legible, no disk call failed and every publish was accepted |
| EventBuffer.EventBuffer.Replay | edge-agent/buffer.go:65-72 | the publish calls made are those of a prefix and at most one failure |
| CoapLink.CoapUplink.DropFailed | edge-agent/coap.go:184-193 | markDown closes and forgets the installed socket only if it is the failed one |
| CoapLink.CoapUplink.Install | edge-agent/coap.go:195-213 | markUp installs the new socket, closes the old one, and reports a down-to-up edge |
| CoapLink.CoapUplink.Close | edge-agent/coap.go:112-121 | closes what is installed and goes down |
| CoapLink.CoapUplink.Publish | edge-agent/coap.go:69-100 | succeeds exactly on a live link with a class 2 answer; any answer keeps the link up |
| CoapLink.CoapUplink.Probe | edge-agent/coap.go:139-169 | comes up only on a dialled socket that answered, closes one that did not, and does nothing while the link is proven |
| CoapSteps.ProbeAlone | edge-agent/coap.go:139-169 | every uninterrupted run of the steps of a probe leaves what the method leaves, for some outcome of the network |
| CoapSteps.ProbeRuns | edge-agent/coap.go:139-169 | and for every outcome there is such a run |
| CoapSteps.PublishAlone | edge-agent/coap.go:69-100 | the same for the steps of a publish: a failed post drops the link it was made on, an answer changes nothing |
| CoapLink.LinkInvariant | edge-agent/coap.go:69-213 | over all interleavings of publishers, the probe loop with its ticks, and Close: up implies an installed socket; every dialled socket is installed, held by the probe, or closed once; onUp fires once per edge |
| CoapSteps.LoopEndsOnClose | edge-agent/coap.go:123-135 | over every run the probe loop returns only after a Close has begun |
| CoapLink.StaleReportClosesNothing | edge-agent/coap.go:185-193 | a report on another socket than the installed one closes nothing |
| CoapLink.StaleReportTakesLinkDown | edge-agent/coap.go:188-192 | a run after which a healthy newer socket is installed and the link is down |
| CoapLink.StaysDownIff | edge-agent/coap.go:112-169 | from every state: a Close keeps the link down over all interleavings and continuations if and only if the probe loop was waiting for its next tick when it began, or had returned |
| Scoring.AeReconstruct | ml/scoring.py:29-42 | the layer loop computes the forward pass, and fails exactly on a shape mismatch |
| Layers.DotAppend | ml/scoring.py:39-39 | the product of two joined rows is the sum of the products of their parts |
| Layers.TimesIdentity | ml/scoring.py:39-39 | the identity matrix maps every batch to itself |
| Layers.UnitRowThrough | ml/scoring.py:39-39 | a unit row picks its row of the weights |
| Layers.MatMulLinear | ml/scoring.py:39-39 | products with a matrix are linear |
| Layers.RelaysActivate | ml/scoring.py:37-41 | identity layers apply the activation once each, but for the last |
| Layers.OneLayer | ml/scoring.py:38-41 | an entry of a one-layer reconstruction is the product with its column of weights plus its bias |
| Layers.ScalingInverts | ml/scoring.py:47-48 | scaling can be undone |
| Layers.ErrorIsSquaredLength | ml/scoring.py:45-50 | a score times the number of features is the squared length of what was not reconstructed |
| Layers.IdentityScoresZero | ml/scoring.py:45-50 | a bundle that reconstructs with the identity scores 0 on every reading of every batch |
| Layers.VerdictIff | ml/scoring.py:53-77 | the verdict and its reason: the score strictly above the threshold, some scaled feature strictly beyond the guard on either side |
| Scoring.ValidateBundle | inference/server.py:106-145 | for any candidate, missing keys included, accepts exactly the servable ones: a known activation, shapes that chain, a finite threshold and no zero scale; gives each refusal exactly where it is due, and names the first layer that breaks |
| Scoring.ShapeSound | ml/scoring.py:45-50 | a bundle that passes scores every batch without a dimension mismatch |
| Scoring.SampleScored | ml/scoring.py:53-77 | and every reading gets a verdict |
| Scoring.BatchErrors | ml/scoring.py:45-50 | the score of a reading does not depend on the batch it comes in |
| Scoring.BatchAgreement | ml/benchmark_rotating.py:70-74 | the vectorised rule gives on each row the verdict score_sample gives on that row alone |
| OnnxNames.SpellInjective | ml/export_onnx.py:53-60 | the names the exporter writes are different for different values, for any number of layers |
| OnnxExport.BuildOnnx | ml/export_onnx.py:28-68 | exports exactly tanh autoencoders, and builds the node list of the compilation function |
| OnnxExport.RunLayers | ml/export_onnx.py:50-60 | the nodes of any number of layers compute the forward pass and get stuck exactly when it has a mismatch |
| OnnxExport.CompilerCorrect | ml/export_onnx.py:39-68 | on every bundle and batch the graph gets stuck exactly when the scorer fails, and otherwise outputs its scores and labels |
| OnnxExport.ExportCorrect | ml/export_onnx.py:28-84 | for shape-correct bundles the written graph, names spelled out, is assigned once and used after assignment and gives reconstruction_errors, and label 1 exactly above the threshold |
| SidecarProofs.RunKeeps | inference/server.py:235-380 | every interleaving of requests keeps one lock holder and the bound on foreign readings |
| SidecarAnswers.AnswersAreVerdicts | inference/server.py:267-300 | every answer to /score is the verdict on its reading, rounded as in the response, of one bundle that was live as a whole at some moment between the arrival of that request and its answer, whatever is reloaded meanwhile |
| SidecarAnswers.ResponseWithin | inference/server.py:300-300 | a response keeps the verdict and its reason, and gives the score to within half a unit of the fifth decimal |
| SidecarShadow.ShadowIsLastLoad | inference/server.py:341-380 | after every run the sidecar shadows the model of the last successful load, and none exactly when there was none or an unload came after it |
| SidecarShadow.ReloadKeepsShadow | inference/server.py:244-248 | a reload installs one more tracker for the same shadow and the new champion, with no evidence, and leaves the others as they were |
| SidecarShadow.UnloadAnswers | inference/server.py:371-380 | an unload is answered with a report exactly when a loaded shadow was still there |
| SidecarShadow.EvidenceGenuine | inference/server.py:283-298 | in every tracker of every run each comparison pairs the verdicts of the champion its request held and of the tracker's own shadow on one reading; every reading compared is counted once |
| SidecarLock.LockFreeIff | inference/server.py:318-380 | in every reachable state the lock is free exactly when no request is between taking and releasing it, and its holder is the one that is |
| SidecarLock.LockComesFree | inference/server.py:318-380 | from every reachable state the holder can finish without a step of any other request |
| SidecarReloads.RepliesTrue | inference/server.py:318-338 | a reload that reports a swap names two models that were live one after the other, one that reports a refusal a model that was live |
| SidecarReloads.DriftFollowsLive | inference/server.py:235-238 | whenever the lock is free, drift is measured against the training statistics of the live model |
| SidecarReloads.ReadingsSinceReset | inference/server.py:273-273 | since the last reset the window has been told every reading scored, in order, and nothing else |
| SidecarProofs.BoundedMixing | inference/server.py:235-248 | when the lock is free an installed tracker names the live champion and holds at most as many readings of other champions as requests held another one at its installation; a reload of the same model makes no reading foreign |
| SidecarMixing.LateReading | inference/server.py:267-300 | from any state with an installed tracker, any request that still holds a snapshot of another champion, whose reading that champion and the shadow can score, can bring the tracker one more foreign reading |
| SidecarMixing.BoundAttained | inference/server.py:235-300 | from any state in which a tracker was just installed, some run makes it hold one foreign reading for each such request: the bound is attained |
| SidecarMixing.InstalledPerChampionIff | inference/server.py:235-300 | for a tracker installed at the end of any run, its evidence is per champion over all continuations if and only if at that moment there was no such request |
| SidecarMixing.MixedEvidence | inference/server.py:267-300 | for any two different models, a run from boot that puts a reading of the old champion in the tracker of the new one |
| SidecarIsolation.ShadowInvisible | inference/server.py:267-380 | two runs with the same scoring and reload steps and different shadows give the same answers, live model and drift window |
| ShadowTracking.ShadowTracker.Observe | inference/shadow.py:33-45 | the counters and sums are those of the list of comparisons, one longer |
| ShadowTracking.ShadowTracker.Error | inference/shadow.py:47-49 | counts a failure and no comparison |
| ShadowTracking.ShadowTracker.GetReport | inference/shadow.py:51-66 | the report is that of the list of comparisons |
| ShadowTracking.CountsBalance | inference/shadow.py:37-42 | every comparison is counted once, and the two kinds of disagreement differ by the difference in alarms |
| ShadowTracking.RateReported | inference/shadow.py:63-63 | a rate of x in n is reported as at least k/100000, for every k, exactly when it is within half a unit below, ties counting for even k only |
| ShadowTracking.ReportMeans | inference/shadow.py:51-66 | rates exist exactly after a comparison, the agreement rate is in [0, 1] and 1 only up to rounding, the bias is at most the mean absolute error |
| ShadowTracking.ScoresReported | inference/shadow.py:64-65 | the reported bias is within half a millionth of the mean of the shadow's scores less that of the champion's, the absolute error of the mean distance |
| ShadowTracking.OrderDoesNotMatter | inference/shadow.py:33-66 | the report does not depend on the order in which concurrent requests took the lock |
| Drift.DriftTracker.constructor | inference/drift.py:61-72 | for statistics of any length: window at least one, minimum at most the window, zero scales repaired, nothing seen |
| Drift.DriftTracker.Observe | inference/drift.py:74-79 | the ring holds the last readings, one more; a reading of the wrong length changes nothing |
| Drift.DriftTracker.Reset | inference/drift.py:81-90 | forgets the readings and keeps the parameters that were not given; new statistics of any length are stored |
| Drift.DriftTracker.Signals | inference/drift.py:96-109 | empty exactly below the effective minimum, an error exactly when the statistics do not match the readings, and otherwise the signals of the plain list of recent readings |
| Drift.Rotation | inference/drift.py:77-79 | the used rows of the ring are the recent readings, rotated |
| Drift.RotatedSignals | inference/drift.py:106-109 | neither signal depends on the rotation |
| DriftProofs.ZShiftIs | inference/drift.py:8-10 | the z-shift is the rolling mean's distance from the training mean in training standard deviations, with its sign |
| DriftProofs.ExactlyOneBin | inference/drift.py:33-34 | every sample that is a number, infinities included, is in exactly one bin, NaN in none |
| DriftProofs.CountsSum | inference/drift.py:52-52 | the counts add up to the number of samples that are numbers |
| DriftProofs.MassesSum | inference/drift.py:41-44 | the expected masses telescope to exactly 1, and for a distribution function none is negative |
| DriftProofs.SharesSum | inference/drift.py:52-53 | the shares of a sample without gaps add up to 1 |
| DriftProofs.PsiIsDistance | inference/drift.py:50-55 | PSI is never negative and is zero exactly when the floored distributions agree |
| DriftMeaning.PsiIsEntropies | inference/drift.py:50-55 | for a logarithm that turns quotients into differences, PSI is the sum of the two relative entropies between floored shares and floored masses |
| DriftMeaning.TermScales | inference/drift.py:55-55 | a term grows with its masses, and where the actual mass is twice the expected one it is the expected one times ln 2 |
| DriftMeaning.BinCount | inference/drift.py:33-34 | the count of a bin, from the numbers of values below its two edges |
| DriftMeaning.EdgesEven | inference/drift.py:30-34 | eleven edges at equal distances from -4 to 4 |
| DriftMeaning.OwnMasses | inference/drift.py:41-53 | the expected masses of a sample's own distribution are its shares, bin by bin |
| DriftMeaning.NoDriftFromItself | inference/drift.py:41-55 | so a sample has PSI 0 from itself |
| DriftMeaning.SignalIs | inference/drift.py:106-109 | the signals of a feature, from that feature of every reading and from its own mean and scale |
| Signing.LoadTrustedKeys | ml/signing.py:173-200 | accepts every key or refuses the whole store; each key is filed under its own id |
| Signing.Folder.SaveBundle | ml/manifest.py:210-238 | however it ends, the directory has gone through exactly the states of a prefix of the save's operations |
| SigningProofs.Stages | ml/manifest.py:170-237 | what readers can see after any number of operations of a save |
| SigningProofs.LaterStages | ml/manifest.py:231-237 | and when the manifest and the model card follow |
| SigningProofs.MixedPairRefused | ml/signing.py:290-295 | a disk that pairs one save's signature with other bytes is refused by every node |
| SigningProofs.VerifiedIff | ml/signing.py:260-332 | on every disk, whoever wrote it: verified if and only if the sidecar is an envelope with the known algorithm, the digest of the bytes in place, a trusted key id, and a signature made with that key over the domain and the digest |
| SigningProofs.AcceptedIff | ml/signing.py:280-332 | which verdicts a node accepts: a sidecar that is present is never taken for unsigned, and one that requires signatures accepts nothing but verified |
| SigningProofs.ForgedRefused | ml/signing.py:327-331 | whoever lacks the trusted key's signature over these bytes is refused |
| SigningProofs.VerdictOfRun | ml/signing.py:260-332 | the verdict after any sequence of complete, failed and crashed saves, from the two saves that wrote the files in place |
| SigningProofs.VerifiedWasSigned | ml/signing.py:280-332 | verified bytes, and all bytes that a node which requires signatures accepts, are those of a save signed with a trusted key |
| SigningProofs.UnsignedWasUnsigned | ml/manifest.py:228-229 | an artifact taken for unsigned was placed by an unsigned save: no crash strips a signature |
| SigningProofs.CompletedSaveAccepted | ml/manifest.py:210-238 | after a completed save the artifact is its bytes, and every node gives the verdict it should |
| SigningProofs.CrashWindow | ml/manifest.py:183-207 | a cut save leaves the old pair, the new pair, or for one operation a mixed one, which is refused for its digest if and only if both parts are there and their bytes differ; what is accepted as signed there is covered by a signature on the very bytes in place |
| SigningReader.HashedWasSigned | ml/signing.py:280-332 | however a reader's separate reads interleave with saves, the bytes it hashed for such a verdict are those of a save signed with a trusted key |
| SigningReader.LoadsWhatItHashedIff | inference/server.py:165-170 | with any saves between the hash and the load, the bytes loaded are the bytes hashed if and only if the last replacement of the artifact in between, if any, placed the same bytes |
| SigningReader.LoadsUnsigned | inference/server.py:165-170 | for every node that trusts a key and every unsigned save, a run in which the node loads its bytes under the verdict "verified" on others: verifying first does not imply that what is loaded was signed |
| Simulator.Machine.StartFault | simulator/simulate.py:73-75 | a fault lasts at least one tick |
| Simulator.Machine.MaybeStartFault | simulator/simulate.py:79-81 | probability 0 never starts a fault, 1 always does, and a running fault is never replaced |
| Simulator.Machine.Step | simulator/simulate.py:83-116 | the reading is labelled with the fault that shaped it, which then has one tick less and ends at zero |
| Simulator.CalmIs | simulator/simulate.py:86-89 | a reading without a fault |
| Simulator.BearingFactors | simulator/simulate.py:91-93 | a bearing fault multiplies the two signals by the factors drawn for it |
| Simulator.OverloadFactors | simulator/simulate.py:97-99 | so does overload |
| Simulator.HeatRises | simulator/simulate.py:94-96 | overheating: 15 degrees with 40 ticks to go, three eighths of a degree more with each |
| Simulator.BearingFaultRaises | simulator/simulate.py:91-93 | what a bearing fault does to a reading, against the same reading without it |
| Simulator.OverloadRaises | simulator/simulate.py:97-99 | what overload does |
| Simulator.OverheatHeats | simulator/simulate.py:94-96 | an overheat episode makes every reading hotter, and changes nothing else in it, if and only if it is shorter than 80 ticks |
| Simulator.EpisodeReadings | ml/evaluate.py:37-47 | terminates with exactly max(1, ticks) readings, all labelled with the fault |
| Evaluation.FirstHit | ml/evaluate.py:67-75 | the first alarm of an episode: an alarm there and none before, or none at all |
| Evaluation.Scan | ml/evaluate.py:68-75 | the inner loop finds the first alarm and counts hits and reasons |
| Evaluation.EvaluateFault | ml/evaluate.py:60-88 | for any scorer the counters summarise the episodes that were generated |
| Evaluation.HealthyRun | ml/evaluate.py:90-96 | false alarms are counted over readings that have no fault |
| Evaluation.Evaluate | ml/evaluate.py:50-98 | results for every fault type and the healthy run; fails exactly when no episodes or no healthy readings are asked for |
| Evaluation.DetectedEpisodes | ml/evaluate.py:76-78 | detected is the number of latencies and of episodes with an alarm, at most all |
| Evaluation.OneLatency | ml/evaluate.py:67-78 | the latency of an episode is the number of readings before its first alarm |
| Evaluation.HitsAndDetections | ml/evaluate.py:70-78 | at least as many alarms as detected episodes, and none only without any |
| Evaluation.LatenciesBelow | ml/evaluate.py:74-78 | no latency reaches the length of an episode |
| Evaluation.ReasonsSum | ml/evaluate.py:70-73 | the reason counts add up to the hits, at most all readings |
| Evaluation.ReasonCounts | ml/evaluate.py:70-73 | so do those of a result, none of them zero |
| Evaluation.PercentilesOrdered | ml/evaluate.py:84-85 | median and p90 exist exactly when something was detected, are latencies that occurred, and median ≤ p90 |
| Evaluation.PercentilesMean | ml/evaluate.py:84-85 | more than half of the detected episodes took at most the median and at least half no less; more than nine tenths took at most p90 |
| Evaluation.ResultSound | ml/evaluate.py:80-88 | rates in [0, 1], rate 1 exactly when every episode was detected, latencies within an episode |
| Evaluation.RatesAre | ml/evaluate.py:80-87 | the two rates are the shares of detected episodes and of flagged readings |
| Gate.CheckBar | ml/promote.py:94-109 | lists the failed criteria of the absolute bar |
| Gate.CheckShadow | ml/promote.py:142-171 | lists what the online evidence lacks, and nothing else when it is about another model |
| Gate.CompareToChampion | ml/promote.py:174-195 | lists the regressions against the champion |
| Gate.Registry.RunGate | ml/promote.py:291-392 | the decision, and the files after it |
| GateProofs.BarPass | ml/promote.py:94-109 | no failure exactly when every criterion is met |
| GateProofs.NoRegression | ml/promote.py:174-195 | no regression exactly when episodes, false alarms and latencies are within tolerance |
| GateFailures.BarNames | ml/promote.py:94-109 | which objection the bar raises, exactly for what, and how many there are |
| GateFailures.SlowerIff | ml/promote.py:186-194 | a fault is slower than the champion's exactly when the champion detected it and the challenger never did or took at least two readings more |
| GateFailures.RegressionNames | ml/promote.py:174-195 | which objection the comparison raises, exactly for what |
| GateFailures.ShadowNames | ml/promote.py:142-171 | which objection the evidence gives rise to, exactly for what |
| GateFailures.FailedIff | ml/promote.py:308-352 | a run fails exactly when there is no challenger, it or the champion that is there cannot be loaded or evaluated, or parity or the report is missing |
| GateFailures.RefusalNames | ml/promote.py:354-365 | a refusal names every objection of the bar, of parity, of the comparison and of the evidence, and no other |
| GateProofs.EvaluationSummarised | ml/promote.py:75-91 | what every summary of an evaluation satisfies |
| GateProofs.OnlyFalseAlarmsRefuse | ml/promote.py:174-195 | with the default bar only the false-alarm comparison can refuse a challenger that clears it |
| GateProofs.PromotedIff | ml/promote.py:354-365 | a challenger is promoted if and only if it clears the bar, parity, the comparison and, where given, the online check |
| GateProofs.RefusalKeepsChampion | ml/promote.py:381-383 | a run without promotion leaves a file, the champion's among them, as it was if and only if it failed, the file is none of the archive's model, signature, manifest, card and report, or the archive leaves the same in it |
| GateFailures.SavedAt | ml/manifest.py:210-238 | the files of a save all speak of the bundle saved, an old signature goes without a key, nothing else changes |
| GateFailures.PromotedWhole | ml/promote.py:367-386 | after a promotion the champion's files are those of the challenger, with its own measurements |
| GateFailures.RefusedReported | ml/promote.py:375-383 | after a refusal the report names the objections, and the candidate beside it is the challenger with its measurements |
| GateProofs.AllKeptIff | ml/manifest.py:228-236 | where some model does not clear the bar, a refusal keeps bundle, signature, manifest and model card of the champion, for all files and runs, if and only if the candidates go to another directory than the champion's |
| GateProofs.ChampionAlwaysClears | ml/promote.py:3-17 | over any sequence of runs whose archives do not write over the champion's file every champion clears the bar |
| GateProofs.BarKeptIff | ml/promote.py:381-386 | where one model clears the bar and another does not, that holds for all starts and runs if and only if no archive writes over the champion's file and the champion is not named like the model card |
| GateProofs.DriftBounded | ml/promote.py:70-72 | k promotions raise the false-alarm rate by at most 0.001 k, and the episodes detected never fall |
| GateProofs.DriftKeptIff | ml/promote.py:381-386 | where one model can follow another and a third raises more false alarms beyond the tolerance, that bound holds for all starts and runs if and only if no archive touches the champion's file and the champion is not named like the model card |
| GateProofs.FalseAlarmsBounded | ml/promote.py:57-72 | the champion's rate stays within min(0.006, start + 0.001 k) |
| GateProofs.EvidenceMeans | ml/promote.py:142-171 | what the default online bar asks of the comparisons behind a report |
| Calibration.BuildBundle | ml/train.py:165-194 | fails exactly without data or on a shape mismatch; otherwise no scale is zero, the threshold is the quantile of the errors under the exact serving arithmetic, and at most the false-alarm budget of calibration readings exceeds it |
| Calibration.ConstantFeatureCentred | ml/train.py:176-177 | a feature that is constant in training is centred and keeps its own scale |
| CalibrationProofs.TrainingStandardised | ml/train.py:175-178 | every feature that varies has mean 0 and mean square 1 over the scaled training readings |
| CalibrationProofs.QuantileAt | ml/train.py:193-193 | at a fraction between two positions of the values in ascending order, the quantile lies at that fraction between the two |
| Calibration.QuantileFlags | ml/train.py:192-193 | at most the budget of values lie above a quantile, exactly the budget if and only if the values around its position differ |
| Calibration.DistinctFlags | ml/train.py:192-193 | exactly the budget when the values are distinct |
| Calibration.CalibrationBound | ml/scoring.py:61-62 | the model flags at most ⌈0.005 (n − 1)⌉ of its n calibration readings, and exactly that many when their errors are distinct |
| Windows.WindowsFit | ml/rotating.py:259-260 | whole windows fit and one more would not |
| WindowsProofs.WindowsTile | ml/rotating.py:297-299 | the windows of a channel, joined, are its beginning |
| WindowsProofs.FewDropped | ml/rotating.py:292-295 | of the shortest signal fewer samples are dropped than a window holds |
| WindowsProofs.EnergyConserved | ml/rotating.py:301-302 | the vibration column squared, times axes times window size, adds up to the squared signal kept |
| WindowsProofs.ConstantReduced | ml/rotating.py:301-309 | constant signals are reported at their value in all three columns |
| WindowsProofs.AveragedAtMostPooled | ml/rotating.py:305-307 | the reported current is at most the RMS over all phases |
| WindowsProofs.RecordingReduced | ml/rotating.py:263-309 | every recording that can be reduced gives one reading per whole window of its shortest signal, energy conserved |
| WindowsMeaning.ReadingMeasures | ml/rotating.py:297-309 | each reading measures its own window: RMS of all vibration samples, mean of all temperature samples, mean over the phases of the RMS of each, over the channels that hold samples |
| WindowsMeaning.StackIff | ml/rotating.py:277-286 | exactly when channels cannot be stacked, and why |
| WindowsMeaning.PresentIs | ml/rotating.py:283-283 | the channels stacked are those that hold samples, each once |
| WindowsMeaning.WindowSizeIs | ml/rotating.py:273-275 | a window lasts one reading period to within half a sample, and none exists exactly when the period is no longer than half a sample |
| WindowsMeaning.ReductionFails | ml/rotating.py:263-295 | exactly when a recording has no readings, and the first reason |
| WindowsProofs.ConstantRecording | ml/rotating.py:263-309 | a machine whose sensors stand still is reported to stand still there |

## Left out

- Inside the client libraries: redelivery of QoS 1 messages after a reconnect (MQTT 3.1.1, section 4.3.2) and retransmission and deduplication of confirmable messages (RFC 7252, section 4.2) are not steps of the model; a request is delivered at most once per publish call.
- Power loss: `write` does not sync to disk, so only process crashes are modelled.
- Floating point: numbers are exact reals, so the float32 initialisers of the exported graph, the rounding of simulated readings and scores, and `int(len * 0.9)` for huge lists are not captured. Division by zero has no value that anything depends on. The two report rates that are gated are rounded as Python rounds.
- JSON outside what the agent writes: white space, arrays, literals, surrogate escapes and field names that differ in case are refused by the model's reader; a line like that reads as one that does not decode. Numbers are their texts: one that the agent did not write is rewritten as it stands, not in its shortest form, and none overflows.
- CBOR, the CoAP and MQTT message formats and the receiver's body decoders are parameters.
- StoreForwardProgress.CanDrain: states that a run exists; that the scheduler takes it is not modelled, nor are timers, tickers and reconnect callbacks, which only start steps that may happen at any time anyway.
- StoreForward: the live publish of an event and the replay of others are not ordered, because the code does not order them. The file of the state machine holds events only; lines that are not events, which `read` skips and the next `Add` drops, are in `EventBuffer`.
- Bundles of the isolation forest, training itself, and the registry as a source of models.
- Scoring.ValidateBundle: weights are matrices and biases vectors, so layers of another rank or type, at which the source raises as well, do not arise; the smoke score of an isolation forest is taken to be finite.
- Sidecar: assumes the feature list of every bundle is the one the sidecar booted with, because `_drift.reset` does not update `features`. Metrics and `/healthz` are not modelled.
- Drift.DriftTracker.Signals: sequential agreement only; the standardisation runs outside the lock and may race with `reset`.
- Signing: manifests, model cards and their text are opaque bytes; partly written temp files are not visible to anyone and are not distinguished.
- Gate: the text of the report, and failures in the middle of the final save, which the signed-save part covers. Directories are told apart as the file system does, links on the way included; that the last component of a path is itself a link, which reading follows and a replacement does not, is not modelled.
- StoreForward: what the CoAP and MQTT libraries, datagrams and the broker's own configuration let through is a parameter of the configuration (`carries`), the same for the whole run.
- Topics, access control lists, champion tags, dashboards, the MCP server, demo scripts, dataset readers, Docker and Terraform: they hold no state or arithmetic that another part depends on. `edgesense-azure/ml/score.py` reads keys the bundle does not have and is not part of this model.
