// The disk-backed event queue (edge-agent/buffer.go).
module EventBuffer {
  import opened Wrappers
  import opened Events
  import opened Fifo
  import opened JsonLines
  import opened Utf8

  // What a file holds as a queue; a missing file is an empty queue.
  function Pending(file: Option<string>): Result<seq<Event>, ReadError> {
    if file.None? then Ok([]) else ReadText(file.value)
  }

  // The file that write leaves.
  function FileOf(evs: seq<Event>): Option<string> {
    if evs == [] then None else Some(Serialize(evs))
  }

  // The events in a file. Blank lines and lines that are not events are none.
  function Stored(file: Option<string>): seq<Event> {
    if file.None? then [] else TextEvents(file.value)
  }

  // The scanner gets through the file.
  predicate Legible(file: Option<string>) {
    file.Some? ==> TextFits(file.value)
  }

  lemma PendingIs(file: Option<string>)
    ensures Pending(file) == if Legible(file) then Ok(Stored(file)) else Err(LineTooLong)
  {
    if file.Some? {
      ReadTextIs(file.value);
    }
  }

  lemma StoredOfFile(evs: seq<Event>)
    ensures Stored(FileOf(evs)) == evs && (Legible(FileOf(evs)) <==> AllFit(evs))
  {
    TextOf(evs);
  }

  lemma {:induction false} SerializeAppend(evs: seq<Event>, ev: Event)
    ensures Serialize(evs + [ev]) == Serialize(evs) + (Line(ev) + "\n")
  {
    if evs == [] {
      assert evs + [ev] == [ev] && [ev][1..] == [];
    } else {
      SerializeAppend(evs[1..], ev);
      assert (evs + [ev])[1..] == evs[1..] + [ev];
      Regrouped(Line(evs[0]) + "\n", Serialize(evs[1..]), Line(ev) + "\n");
    }
  }

  lemma NextLine(evs: seq<Event>, i: nat)
    requires i < |evs|
    ensures Serialize(evs[..i + 1]) == Serialize(evs[..i]) + (Line(evs[i]) + "\n")
  {
    SerializeAppend(evs[..i], evs[i]);
    assert evs[..i] + [evs[i]] == evs[..i + 1];
  }

  lemma Regrouped(a: string, b: string, c: string)
    ensures a + (b + c) == (a + b) + c
  {
  }

  datatype Opened = Missing | Broken | Text(text: string)

  // The buffer file and its temporary sibling. Every system call may fail; `seen` is
  // what the buffer file held after each call, which is what a process that dies
  // there leaves behind.
  class Disk {
    var file: Option<string>
    var temp: Option<string>
    ghost var seen: seq<Option<string>>
    ghost var faults: nat

    constructor (file: Option<string>)
      ensures this.file == file && seen == [] && faults == 0
    {
      this.file, temp, seen, faults := file, None, [], 0;
    }

    method Open() returns (r: Opened)
      modifies this
      ensures file == old(file) && temp == old(temp) && seen == old(seen) + [file]
      ensures r.Text? ==> file == Some(r.text)
      ensures r.Missing? ==> file == None
      ensures faults == old(faults) + (if r.Broken? then 1 else 0)
    {
      seen := seen + [file];
      if * {
        faults := faults + 1;
        return Broken;
      }
      if file.Some? {
        return Text(file.value);
      }
      return Missing;
    }

    method Create() returns (ok: bool)
      modifies this
      ensures file == old(file) && seen == old(seen) + [file]
      ensures ok ==> temp == Some("")
      ensures faults == old(faults) + (if ok then 0 else 1)
    {
      seen := seen + [file];
      ok := *;
      if ok {
        temp := Some("");
      } else {
        faults := faults + 1;
      }
    }

    // A failed append may leave any part of the line behind.
    method Append(line: string) returns (ok: bool)
      requires temp.Some?
      modifies this
      ensures file == old(file) && seen == old(seen) + [file]
      ensures temp.Some? && (ok ==> temp == Some(old(temp.value) + line))
      ensures faults == old(faults) + (if ok then 0 else 1)
    {
      seen := seen + [file];
      ok := *;
      if ok {
        temp := Some(temp.value + line);
      } else {
        var n: nat :| n <= |line|;
        temp := Some(temp.value + line[..n]);
        faults := faults + 1;
      }
    }

    method Close() returns (ok: bool)
      modifies this
      ensures file == old(file) && temp == old(temp) && seen == old(seen) + [file]
      ensures faults == old(faults) + (if ok then 0 else 1)
    {
      seen := seen + [file];
      ok := *;
      if !ok {
        faults := faults + 1;
      }
    }

    method RemoveTemp()
      modifies this
      ensures file == old(file) && seen == old(seen) + [file] && faults == old(faults)
    {
      seen := seen + [file];
      if * {
        temp := None;
      }
    }

    // Moving the temporary file over the buffer file is one step.
    method Rename() returns (ok: bool)
      requires temp.Some?
      modifies this
      ensures ok ==> file == old(temp) && temp == None
      ensures !ok ==> file == old(file) && temp == old(temp)
      ensures seen == old(seen) + [file]
      ensures faults == old(faults) + (if ok then 0 else 1)
    {
      ok := *;
      if ok {
        file, temp := temp, None;
      } else {
        faults := faults + 1;
      }
      seen := seen + [file];
    }

    // Removing a file that is not there counts as done.
    method Remove() returns (ok: bool)
      modifies this
      ensures temp == old(temp) && seen == old(seen) + [file]
      ensures file == (if ok then None else old(file))
      ensures faults == old(faults) + (if ok then 0 else 1)
    {
      ok := *;
      if ok {
        file := None;
      } else {
        faults := faults + 1;
      }
      seen := seen + [file];
    }
  }

  // Every file content between two points in time was the old one or the new one.
  ghost predicate OldOrNew(before: seq<Option<string>>, after: seq<Option<string>>,
                           old': Option<string>, new': Option<string>)
  {
    && |before| <= |after| && after[..|before|] == before
    && forall k :: |before| <= k < |after| ==> after[k] == old' || after[k] == new'
  }

  lemma StillOldOrNew(a: seq<Option<string>>, b: seq<Option<string>>, c: seq<Option<string>>,
                      old': Option<string>, new': Option<string>)
    requires OldOrNew(a, b, old', old') && OldOrNew(b, c, old', new')
    ensures OldOrNew(a, c, old', new')
  {
    assert c[..|a|] == b[..|a|];
    forall k | |a| <= k < |c| ensures c[k] == old' || c[k] == new' {
      if k < |b| {
        assert c[k] == c[..|b|][k] == b[k];
      }
    }
  }

  // The uplink as the drain sees it: each publish either succeeds or fails.
  class Publisher {
    ghost var calls: seq<(Event, bool)>

    constructor ()
      ensures calls == []
    {
      calls := [];
    }

    method Publish(ev: Event) returns (ok: bool)
      modifies this
      ensures calls == old(calls) + [(ev, ok)]
    {
      ok := *;
      calls := calls + [(ev, ok)];
    }
  }

  // Successful publishes of the first n events.
  function Passed(evs: seq<Event>, n: nat): (calls: seq<(Event, bool)>)
    requires n <= |evs|
    ensures |calls| == n
  {
    seq(n, i requires 0 <= i < n => (evs[i], true))
  }

  // The publish calls of a drain that succeeds on the first n events and then, unless
  // they were all, fails once.
  function Attempts(evs: seq<Event>, n: nat): (calls: seq<(Event, bool)>)
    requires n <= |evs|
    ensures |calls| == if n < |evs| then n + 1 else n
    ensures forall i :: 0 <= i < |calls| ==> calls[i] == (evs[i], i < n)
  {
    Passed(evs, n) + (if n < |evs| then [(evs[n], false)] else [])
  }

  function Prepend(evs: seq<Event>, r: Result<seq<Event>, ReadError>): Result<seq<Event>, ReadError> {
    if r.Ok? then Ok(evs + r.value) else r
  }

  lemma PrependNothing(r: Result<seq<Event>, ReadError>)
    ensures Prepend([], r) == r
  {
    if r.Ok? {
      assert [] + r.value == r.value;
    }
  }

  lemma PrependMore(evs: seq<Event>, more: seq<Event>, r: Result<seq<Event>, ReadError>)
    ensures Prepend(evs + more, r) == Prepend(evs, Prepend(more, r))
  {
    if r.Ok? {
      assert evs + more + r.value == evs + (more + r.value);
    }
  }

  // The scanner loop of read.
  method ScanLines(text: string) returns (r: Result<seq<Event>, ReadError>)
    ensures r == ReadText(text)
  {
    var rest, evs := text, [];
    PrependNothing(ReadText(text));
    while rest != ""
      invariant ReadText(text) == Prepend(evs, ReadText(rest))
      decreases |rest|
    {
      var line := rest[..LineEnd(rest)];
      if Bytes(line) + 1 > SCANNER_LIMIT {
        return Err(LineTooLong);
      }
      PrependMore(evs, LineEvents(line), ReadText(AfterLine(rest)));
      evs, rest := evs + LineEvents(line), AfterLine(rest);
    }
    assert evs + [] == evs;
    return Ok(evs);
  }

  // What an append leaves: one entry more, up to the capacity; a suffix of the old ones
  // and the new one, which is last. `evicted` is the rest.
  ghost predicate Grown(queue: seq<Event>, ev: Event, max: nat, now: seq<Event>, evicted: seq<Event>) {
    && |now| == (if |queue| < max then |queue| + 1 else max)
    && now == (queue + [ev])[|queue| + 1 - |now|..]
    && evicted == (queue + [ev])[..|queue| + 1 - |now|]
    && (max > 0 ==> now != [] && now[|now| - 1] == ev)
  }

  class EventBuffer {
    const disk: Disk
    const max: nat
    // every event a completed Add accepted, and how the ones before `queue` left
    ghost var log: seq<Event>
    ghost var removed: seq<Removal<Event>>
    ghost var queue: seq<Event>

    // The queue is the events of the file, whatever else is in it, and what is left of
    // the log.
    ghost predicate Valid()
      reads this, disk
    {
      queue == Stored(disk.file) && log == Erase(removed) + queue
    }

    // An agent starts on any file it finds.
    constructor (disk: Disk, max: nat)
      ensures Valid() && this.disk == disk && this.max == max && removed == []
    {
      this.disk, this.max := disk, max;
      this.log, this.removed, this.queue := Stored(disk.file), [], Stored(disk.file);
    }

    // read: the events of all lines that hold one.
    method Read() returns (r: Result<seq<Event>, ReadError>)
      modifies disk
      ensures disk.file == old(disk.file)
      ensures OldOrNew(old(disk.seen), disk.seen, disk.file, disk.file)
      ensures disk.faults == old(disk.faults) ==> r == Pending(disk.file)
      ensures r.Ok? ==> disk.faults == old(disk.faults)
      ensures disk.faults >= old(disk.faults)
    {
      var found := disk.Open();
      match found
      case Missing => return Ok([]);
      case Broken => return Err(OpenFailed);
      case Text(text) => r := ScanLines(text);
    }

    // The temporary file, line by line.
    method WriteTemp(evs: seq<Event>) returns (ok: bool)
      modifies disk
      ensures disk.file == old(disk.file)
      ensures ok ==> disk.temp == Some(Serialize(evs))
      ensures OldOrNew(old(disk.seen), disk.seen, disk.file, disk.file)
      ensures disk.faults >= old(disk.faults)
      ensures ok <==> disk.faults == old(disk.faults)
    {
      ok := disk.Create();
      if !ok {
        return;
      }
      var i := 0;
      while i < |evs|
        invariant 0 <= i <= |evs|
        invariant disk.file == old(disk.file) && disk.temp == Some(Serialize(evs[..i]))
        invariant OldOrNew(old(disk.seen), disk.seen, disk.file, disk.file)
        invariant disk.faults == old(disk.faults)
      {
        NextLine(evs, i);
        ok := disk.Append(Line(evs[i]) + "\n");
        if !ok {
          disk.RemoveTemp();
          return;
        }
        i := i + 1;
      }
      assert evs[..i] == evs;
      ok := disk.Close();
    }

    // write: replace the file, or leave it alone.
    method Write(evs: seq<Event>) returns (ok: bool)
      modifies disk
      ensures disk.file == if ok then FileOf(evs) else old(disk.file)
      ensures OldOrNew(old(disk.seen), disk.seen, old(disk.file), FileOf(evs))
      ensures disk.faults >= old(disk.faults)
      ensures ok <==> disk.faults == old(disk.faults)
    {
      if evs == [] {
        ok := disk.Remove();
        return;
      }
      ok := WriteTemp(evs);
      if ok {
        ok := disk.Rename();
      }
    }

    // Add: the queue grows at its end and is cut at its front, and lines that are not
    // events disappear; an error loses the event and nothing else. While a line is too
    // long for the scanner no Add can succeed.
    method Add(ev: Event) returns (ok: bool, ghost evicted: seq<Event>)
      requires Valid()
      modifies this, disk
      ensures Valid()
      ensures ok ==> log == old(log) + [ev]
      ensures ok ==> Grown(old(queue), ev, max, queue, evicted) && removed == old(removed) + Evictions(evicted)
      ensures !ok ==> queue == old(queue) && log == old(log) && removed == old(removed) && disk.file == old(disk.file)
      ensures ok ==> disk.file == FileOf(queue)
      ensures ok <==> disk.faults == old(disk.faults) && Legible(old(disk.file))
      ensures OldOrNew(old(disk.seen), disk.seen, old(disk.file), FileOf(Capped(old(queue) + [ev], max)))
    {
      PendingIs(disk.file);
      evicted := [];
      var r := Read();
      if r.Err? {
        return false, [];
      }
      assert r.value == queue;
      var kept := r.value + [ev];
      if |kept| > max {
        kept := kept[|kept| - max..];
      }
      assert kept == Capped(queue + [ev], max);
      ghost var mid := disk.seen;
      ok := Write(kept);
      StillOldOrNew(old(disk.seen), mid, disk.seen, old(disk.file), FileOf(kept));
      if ok {
        evicted := Enqueue(ev);
      }
    }

    // The file holds the grown queue.
    ghost method Enqueue(ev: Event) returns (evicted: seq<Event>)
      requires disk.file == FileOf(Capped(queue + [ev], max)) && log == Erase(removed) + queue
      modifies this`queue, this`log, this`removed
      ensures Valid() && disk.file == FileOf(queue) && log == old(log) + [ev]
      ensures Grown(old(queue), ev, max, queue, evicted) && removed == old(removed) + Evictions(evicted)
    {
      var grown := queue + [ev];
      AppendKeepsNewest(queue, ev, max);
      evicted := grown[..Overflow(grown, max)];
      AddQueue(removed, log, queue, ev, max);
      StoredOfFile(Capped(grown, max));
      removed := removed + Evictions(evicted);
      log, queue := log + [ev], Capped(grown, max);
    }

    // Len: what the metrics and the periodic flush see.
    method Len() returns (n: nat)
      requires Valid()
      modifies disk
      ensures Valid() && disk.file == old(disk.file)
      ensures n == |queue| || n == 0
      ensures disk.faults == old(disk.faults) && Legible(disk.file) ==> n == |queue|
    {
      PendingIs(disk.file);
      var r := Read();
      return if r.Ok? then |r.value| else 0;
    }

    // DrainTo: replays in order, stops at the first failure, and removes what it
    // replayed unless the rewrite fails.
    method DrainTo(p: Publisher) returns (n: nat, ok: bool)
      requires Valid()
      modifies this, disk, p
      ensures Valid()
      ensures n <= |old(queue)|
      ensures p.calls == old(p.calls)
              || (Legible(old(disk.file)) && old(queue) != [] && p.calls == old(p.calls) + Attempts(old(queue), n))
      ensures p.calls == old(p.calls) ==> queue == old(queue) && removed == old(removed) && n == 0
      ensures disk.faults == old(disk.faults) && Legible(old(disk.file)) && old(queue) != [] ==> p.calls != old(p.calls)
      ensures disk.faults == old(disk.faults) && Legible(old(disk.file)) ==>
                queue == old(queue)[n..] && removed == old(removed) + Replays(old(queue)[..n])
      ensures disk.faults != old(disk.faults) || !Legible(old(disk.file)) ==>
                queue == old(queue) && removed == old(removed) && disk.file == old(disk.file)
      ensures ok <==> Legible(old(disk.file)) && disk.faults == old(disk.faults) && n == |old(queue)|
      ensures ok ==> queue == []
      ensures log == old(log)
      ensures OldOrNew(old(disk.seen), disk.seen, old(disk.file), FileOf(old(queue)[n..]))
    {
      PendingIs(disk.file);
      var r := Read();
      if r.Err? || r.value == [] {
        n, ok := 0, r.Ok?;
        assert Replays<Event>([]) == [];
        return;
      }
      assert r.value == queue;
      n := Replay(p, r.value);
      ghost var mid := disk.seen;
      var rewritten := Write(r.value[n..]);
      StillOldOrNew(old(disk.seen), mid, disk.seen, old(disk.file), FileOf(r.value[n..]));
      ok := n == |r.value| && rewritten;
      if rewritten {
        Dequeue(n);
      }
    }

    // The publish loop of DrainTo.
    method Replay(p: Publisher, evs: seq<Event>) returns (n: nat)
      modifies p
      ensures n <= |evs| && p.calls == old(p.calls) + Attempts(evs, n)
    {
      n := 0;
      while n < |evs|
        invariant 0 <= n <= |evs| && p.calls == old(p.calls) + Passed(evs, n)
      {
        var published := p.Publish(evs[n]);
        if !published {
          assert old(p.calls) + Passed(evs, n) + [(evs[n], false)] == old(p.calls) + Attempts(evs, n);
          return;
        }
        assert Passed(evs, n) + [(evs[n], true)] == Passed(evs, n + 1);
        n := n + 1;
      }
    }

    // The replayed front of the queue is gone from the file.
    ghost method Dequeue(n: nat)
      requires n <= |queue| && disk.file == FileOf(queue[n..]) && log == Erase(removed) + queue
      modifies this`queue, this`removed
      ensures Valid() && queue == old(queue)[n..] && removed == old(removed) + Replays(old(queue)[..n])
    {
      DrainQueue(removed, log, queue, n);
      StoredOfFile(queue[n..]);
      removed, queue := removed + Replays(queue[..n]), queue[n..];
    }
  }
}
