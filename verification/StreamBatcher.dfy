/** Buffering of stream output (`src/services/streamDeltaBatcher.ts`).

    Text is collected per (project, task), first behind a 40 ms delay, then aligned
    to an animation frame with a timeout as fallback. Timer callbacks capture the
    buffer they were made for. The module proves that no text is lost, duplicated or
    reordered, that a buffer can always still be flushed by a live timer, and that a
    callback never meets a buffer other than its own. */
module StreamBatcher {
  import opened Common

  datatype Key = Key(projectId: Option<string>, taskId: string)

  datatype Delta = Delta(projectId: Option<string>, taskId: string, text: Option<string>, route: Option<string>)

  function KeyOf(d: Delta): Key { Key(d.projectId, d.taskId) }

  datatype TimerKind = Delay | Frame | Fallback

  /** A live timer and what its callback captured. */
  datatype Timer = Timer(kind: TimerKind, key: Key, buffer: nat)

  datatype Buffer = Buffer(
    id: nat,
    chunks: seq<string>,
    route: Option<string>,
    delay: Option<nat>,
    frame: Option<nat>,
    fallback: Option<nat>)

  /** What leaves the batcher: delivered text, text dropped on a project switch or
      on disposal, and the terminal events the dispatcher emits after flushing. */
  datatype Output =
    | Delivered(key: Key, text: string, route: Option<string>)
    | Dropped(key: Key, text: string)
    | Terminal(key: Key)

  datatype Streams = Streams(
    buffers: map<Key, Buffer>, timers: map<nat, Timer>, nextId: nat, outputs: seq<Output>)

  const INITIAL := Streams(map[], map[], 0, [])

  function Ids(h: Option<nat>): set<nat> { if h.Some? then {h.value} else {} }

  /** `cancelSchedule`: the live timers without those of the buffer. */
  function Cancelled(timers: map<nat, Timer>, b: Buffer): map<nat, Timer> {
    timers - (Ids(b.delay) + Ids(b.frame) + Ids(b.fallback))
  }

  function Enqueue(s: Streams, d: Delta): Streams {
    if d.taskId == "" || d.text.None? then s
    else
      var k := KeyOf(d);
      if k in s.buffers then
        var b := s.buffers[k];
        s.(buffers := s.buffers[k := b.(chunks := b.chunks + [d.text.value],
                                        route := if d.route.Some? then d.route else b.route)])
      else
        Streams(s.buffers[k := Buffer(s.nextId, [d.text.value], d.route, Some(s.nextId + 1), None, None)],
                s.timers[s.nextId + 1 := Timer(Delay, k, s.nextId)],
                s.nextId + 2, s.outputs)
  }

  function Flush(s: Streams, k: Key): Streams {
    if k !in s.buffers then s
    else
      var b := s.buffers[k];
      Streams(s.buffers - {k}, Cancelled(s.timers, b), s.nextId,
              s.outputs + [Delivered(k, Flatten(b.chunks), b.route)])
  }

  function Drop(s: Streams, k: Key): Streams {
    if k !in s.buffers then s
    else
      var b := s.buffers[k];
      Streams(s.buffers - {k}, Cancelled(s.timers, b), s.nextId, s.outputs + [Dropped(k, Flatten(b.chunks))])
  }

  predicate IsCurrent(s: Streams, t: Timer) {
    t.key in s.buffers && s.buffers[t.key].id == t.buffer
  }

  /** The captured buffer forgets the handle of the timer that just fired. */
  function Forget(s: Streams, t: Timer): Streams {
    if !IsCurrent(s, t) then s
    else
      var b := s.buffers[t.key];
      s.(buffers := s.buffers[t.key := match t.kind
                                       case Delay => b.(delay := None)
                                       case Frame => b.(frame := None)
                                       case Fallback => b.(fallback := None)])
  }

  /** `alignFlush`; a hidden document may have no animation frames. */
  function AlignFlush(s: Streams, t: Timer, frames: bool): Streams {
    if !IsCurrent(s, t) then s
    else
      var b := s.buffers[t.key];
      var fallbackTimers := s.timers[s.nextId + 1 := Timer(Fallback, t.key, t.buffer)];
      Streams(s.buffers[t.key := b.(frame := if frames then Some(s.nextId) else None, fallback := Some(s.nextId + 1))],
              if frames then fallbackTimers[s.nextId := Timer(Frame, t.key, t.buffer)] else fallbackTimers,
              s.nextId + 2, s.outputs)
  }

  /** A live timer fires. */
  function Fire(s: Streams, id: nat, frames: bool): Streams {
    if id !in s.timers then s
    else
      var t := s.timers[id];
      var forgotten := Forget(s.(timers := s.timers - {id}), t);
      if t.kind.Delay? then AlignFlush(forgotten, t, frames) else Flush(forgotten, t.key)
  }

  /** The dispatcher flushes a task before it passes on its terminal event. */
  function DispatchTerminal(s: Streams, k: Key): Streams {
    var flushed := Flush(s, k);
    flushed.(outputs := flushed.outputs + [Terminal(k)])
  }

  datatype Step =
    | Receive(delta: Delta)
    | TimerFires(id: nat, frames: bool)
    | FlushTask(key: Key)
    | Discard(key: Key)
    | TerminalEvent(key: Key)

  function Next(s: Streams, step: Step): Streams {
    match step
    case Receive(d) => Enqueue(s, d)
    case TimerFires(id, frames) => Fire(s, id, frames)
    case FlushTask(k) => Flush(s, k)
    case Discard(k) => Drop(s, k)
    case TerminalEvent(k) => DispatchTerminal(s, k)
  }

  function Run(steps: seq<Step>): Streams {
    if steps == [] then INITIAL else Next(Run(steps[..|steps| - 1]), steps[|steps| - 1])
  }

  // ---- timers ---------------------------------------------------------------------

  predicate HandleLive(s: Streams, h: Option<nat>, t: Timer) {
    h.Some? ==> h.value < s.nextId && h.value in s.timers && s.timers[h.value] == t
  }

  function HandleOf(b: Buffer, kind: TimerKind): Option<nat> {
    match kind case Delay => b.delay case Frame => b.frame case Fallback => b.fallback
  }

  ghost predicate BufferOk(s: Streams, k: Key) {
    k in s.buffers ==>
      var b := s.buffers[k];
      && b.id < s.nextId
      && HandleLive(s, b.delay, Timer(Delay, k, b.id))
      && HandleLive(s, b.frame, Timer(Frame, k, b.id))
      && HandleLive(s, b.fallback, Timer(Fallback, k, b.id))
      && (b.delay.Some? <==> b.fallback.None?)
      && (b.delay.Some? ==> b.frame.None?)
  }

  ghost predicate TimerOk(s: Streams, id: nat) {
    id in s.timers ==>
      id < s.nextId && IsCurrent(s, s.timers[id]) && HandleOf(s.buffers[s.timers[id].key], s.timers[id].kind) == Some(id)
  }

  /** Buffers and live timers belong to each other: every buffer waits for its delay
      or its fallback timer, and every live timer is a handle of the buffer it was
      made for. */
  ghost predicate Scheduled(s: Streams) {
    && (forall k :: BufferOk(s, k))
    && (forall id :: TimerOk(s, id))
  }

  lemma EnqueueKeepsSchedule(s: Streams, d: Delta)
    requires Scheduled(s)
    ensures Scheduled(Enqueue(s, d))
  {
    var s' := Enqueue(s, d);
    forall k ensures BufferOk(s', k) { assert BufferOk(s, k); }
    forall id ensures TimerOk(s', id) { assert TimerOk(s, id); }
  }

  // Removing a buffer together with its timers.
  lemma {:induction false} RemoveKeepsSchedule(s: Streams, k: Key, outputs: seq<Output>)
    requires k in s.buffers
    requires forall j :: j != k ==> BufferOk(s, j)
    requires forall id :: id in s.timers && s.timers[id].key != k ==> TimerOk(s, id)
    requires forall id :: id in s.timers && s.timers[id].key == k ==>
               id in Ids(s.buffers[k].delay) + Ids(s.buffers[k].frame) + Ids(s.buffers[k].fallback)
    requires forall id :: id in s.timers && s.timers[id].key != k ==>
               id !in Ids(s.buffers[k].delay) + Ids(s.buffers[k].frame) + Ids(s.buffers[k].fallback)
    ensures Scheduled(Streams(s.buffers - {k}, Cancelled(s.timers, s.buffers[k]), s.nextId, outputs))
  {
    var s' := Streams(s.buffers - {k}, Cancelled(s.timers, s.buffers[k]), s.nextId, outputs);
    forall j ensures BufferOk(s', j) { if j != k { assert BufferOk(s, j); } }
    forall id ensures TimerOk(s', id) {
      if id in s'.timers { assert TimerOk(s, id); }
    }
  }

  lemma FlushKeepsSchedule(s: Streams, k: Key)
    requires Scheduled(s)
    ensures Scheduled(Flush(s, k)) && Scheduled(Drop(s, k)) && Scheduled(DispatchTerminal(s, k))
  {
    if k in s.buffers {
      assert BufferOk(s, k);
      assert forall id :: id in s.timers ==> TimerOk(s, id);
      RemoveKeepsSchedule(s, k, Flush(s, k).outputs);
      RemoveKeepsSchedule(s, k, Drop(s, k).outputs);
      RemoveKeepsSchedule(s, k, DispatchTerminal(s, k).outputs);
    } else {
      var s' := DispatchTerminal(s, k);
      forall j ensures BufferOk(s', j) { assert BufferOk(s, j); }
      forall id ensures TimerOk(s', id) { assert TimerOk(s, id); }
    }
  }

  lemma FireDelayKeepsSchedule(s: Streams, id: nat, frames: bool)
    requires Scheduled(s) && id in s.timers && s.timers[id].kind.Delay?
    ensures Scheduled(Fire(s, id, frames))
  {
    var t := s.timers[id];
    assert TimerOk(s, id) && BufferOk(s, t.key);
    var s' := Fire(s, id, frames);
    forall k ensures BufferOk(s', k) {
      assert BufferOk(s, k);
    }
    forall j ensures TimerOk(s', j) {
      assert TimerOk(s, j);
    }
  }

  lemma FireFlushKeepsSchedule(s: Streams, id: nat)
    requires Scheduled(s) && id in s.timers && !s.timers[id].kind.Delay?
    ensures Scheduled(Flush(Forget(s.(timers := s.timers - {id}), s.timers[id]), s.timers[id].key))
  {
    var t := s.timers[id];
    assert TimerOk(s, id) && BufferOk(s, t.key);
    var mid := Forget(s.(timers := s.timers - {id}), t);
    forall j | j != t.key ensures BufferOk(mid, j) { assert BufferOk(s, j); }
    forall j | j in mid.timers ensures mid.timers[j].key != t.key ==> TimerOk(mid, j) { assert TimerOk(s, j); }
    forall j | j in mid.timers && mid.timers[j].key == t.key
      ensures j in Ids(mid.buffers[t.key].delay) + Ids(mid.buffers[t.key].frame) + Ids(mid.buffers[t.key].fallback)
    {
      assert TimerOk(s, j);
    }
    RemoveKeepsSchedule(mid, t.key, Flush(mid, t.key).outputs);
  }

  lemma NextKeepsSchedule(s: Streams, step: Step)
    requires Scheduled(s)
    ensures Scheduled(Next(s, step))
  {
    match step
    case Receive(d) => EnqueueKeepsSchedule(s, d);
    case TimerFires(id, frames) =>
      if id in s.timers {
        if s.timers[id].kind.Delay? {
          FireDelayKeepsSchedule(s, id, frames);
        } else {
          FireFlushKeepsSchedule(s, id);
        }
      }
    case FlushTask(k) => FlushKeepsSchedule(s, k);
    case Discard(k) => FlushKeepsSchedule(s, k);
    case TerminalEvent(k) => FlushKeepsSchedule(s, k);
  }

  /** In every run, every buffered stream has a live delay or fallback timer. */
  lemma {:induction false} BufferedStreamsAreScheduled(steps: seq<Step>)
    ensures Scheduled(Run(steps))
    ensures forall k :: k in Run(steps).buffers ==>
              exists id :: id in Run(steps).timers && Run(steps).timers[id].key == k && !Run(steps).timers[id].kind.Frame?
    decreases |steps|
  {
    if steps != [] {
      BufferedStreamsAreScheduled(steps[..|steps| - 1]);
      NextKeepsSchedule(Run(steps[..|steps| - 1]), steps[|steps| - 1]);
    }
    var s := Run(steps);
    forall k | k in s.buffers
      ensures exists id :: id in s.timers && s.timers[id].key == k && !s.timers[id].kind.Frame?
    {
      assert BufferOk(s, k);
      var b := s.buffers[k];
      var id := if b.delay.Some? then b.delay.value else b.fallback.value;
      assert id in s.timers;
    }
  }

  /** In every run a live callback belongs to the buffer it was made for: the identity
      test in `alignFlush` always succeeds. */
  lemma {:induction false} CallbackMeetsItsBuffer(steps: seq<Step>, id: nat)
    requires id in Run(steps).timers
    ensures IsCurrent(Run(steps), Run(steps).timers[id])
  {
    BufferedStreamsAreScheduled(steps);
    assert TimerOk(Run(steps), id);
  }

  /** The first text of a task opens a buffer behind a delay timer; further text joins it;
      the route is the last one that was given. Output without task or text is ignored. */
  lemma EnqueueMeans(s: Streams, d: Delta)
    requires Scheduled(s)
    ensures var s', k := Enqueue(s, d), Key(d.projectId, d.taskId);
            && s'.outputs == s.outputs
            && (d.taskId == "" || d.text == None ==> s' == s)
            && (d.taskId != "" && d.text != None ==>
                  && k in s'.buffers
                  && s'.buffers[k].chunks == (if k in s.buffers then s.buffers[k].chunks else []) + [d.text.value]
                  && s'.buffers[k].route == (if d.route.None? && k in s.buffers then s.buffers[k].route else d.route)
                  && (k in s.buffers ==> s'.timers == s.timers)
                  && (k !in s.buffers ==>
                        exists id :: id in s'.timers && id !in s.timers && s'.timers[id] == Timer(Delay, k, s'.buffers[k].id)))
  {
    var k := KeyOf(d);
    assert TimerOk(s, s.nextId + 1);
    if d.taskId != "" && d.text.Some? && k !in s.buffers { assert s.nextId + 1 in Enqueue(s, d).timers; }
  }

  /** In every run, when the delay timer of a task fires, the text stays buffered and waits
      for its fallback timer and, where frames are drawn, an animation frame. */
  lemma {:induction false} DelayAlignsFlush(steps: seq<Step>, id: nat, frames: bool)
    requires id in Run(steps).timers && Run(steps).timers[id].kind.Delay?
    ensures var s, s' := Run(steps), Fire(Run(steps), id, frames);
            var k := s.timers[id].key;
            && s'.outputs == s.outputs && id !in s'.timers && k in s.buffers && k in s'.buffers
            && s'.buffers[k].chunks == s.buffers[k].chunks && s'.buffers[k].route == s.buffers[k].route
            && s'.buffers[k].fallback.Some? && s'.buffers[k].fallback.value in s'.timers
            && s'.timers[s'.buffers[k].fallback.value].kind.Fallback?
            && (s'.buffers[k].frame.Some? <==> frames)
            && (frames ==> s'.buffers[k].frame.value in s'.timers && s'.timers[s'.buffers[k].frame.value].kind.Frame?)
  {
    BufferedStreamsAreScheduled(steps);
    var s := Run(steps);
    assert TimerOk(s, id) && BufferOk(s, s.timers[id].key);
    assert TimerOk(s, s.nextId) && TimerOk(s, s.nextId + 1);
  }

  /** In every run, when its animation frame or fallback timer fires, the text of a task is
      delivered with its route, and neither buffer nor timer of the task is left. */
  lemma {:induction false} AlignedTimerDelivers(steps: seq<Step>, id: nat, frames: bool)
    requires id in Run(steps).timers && !Run(steps).timers[id].kind.Delay?
    ensures var s, s' := Run(steps), Fire(Run(steps), id, frames);
            var k := s.timers[id].key;
            && k in s.buffers && k !in s'.buffers
            && s'.outputs == s.outputs + [Delivered(k, Flatten(s.buffers[k].chunks), s.buffers[k].route)]
            && (forall j :: j in s'.timers ==> s'.timers[j].key != k)
            && (forall j :: j in s.timers && s.timers[j].key != k ==> j in s'.timers)
  {
    BufferedStreamsAreScheduled(steps);
    var s := Run(steps);
    var k := s.timers[id].key;
    assert TimerOk(s, id) && BufferOk(s, k);
    forall j | j in s.timers
      ensures s.timers[j].key == k <==> j in Ids(s.buffers[k].delay) + Ids(s.buffers[k].frame) + Ids(s.buffers[k].fallback)
    {
      assert TimerOk(s, j);
    }
  }

  /** In every run, flushing a task delivers its text at once; without text it does nothing. */
  lemma {:induction false} FlushDelivers(steps: seq<Step>, k: Key)
    ensures var s, s' := Run(steps), Flush(Run(steps), k);
            if k !in s.buffers then s' == s
            else && s'.outputs == s.outputs + [Delivered(k, Flatten(s.buffers[k].chunks), s.buffers[k].route)]
                 && k !in s'.buffers && forall j :: j in s'.timers ==> s'.timers[j].key != k
  {
    BufferedStreamsAreScheduled(steps);
    var s := Run(steps);
    if k in s.buffers {
      forall j | j in s.timers && s.timers[j].key == k
        ensures j in Ids(s.buffers[k].delay) + Ids(s.buffers[k].frame) + Ids(s.buffers[k].fallback)
      {
        assert TimerOk(s, j);
      }
    }
  }

  // ---- text ------------------------------------------------------------------------

  function TextOf(o: Output, k: Key): string {
    match o
    case Delivered(key, text, _) => if key == k then text else ""
    case Dropped(key, text) => if key == k then text else ""
    case Terminal(_) => ""
  }

  /** All text of a task that has left the batcher, in order. */
  function LeftText(outputs: seq<Output>, k: Key): string {
    if outputs == [] then "" else LeftText(outputs[..|outputs| - 1], k) + TextOf(outputs[|outputs| - 1], k)
  }

  function BufferedText(s: Streams, k: Key): string {
    if k in s.buffers then Flatten(s.buffers[k].chunks) else ""
  }

  /** The text a step enqueues for a task. */
  function Gain(step: Step, k: Key): string {
    if step.Receive? && step.delta.taskId != "" && step.delta.text.Some? && KeyOf(step.delta) == k
    then step.delta.text.value else ""
  }

  /** All text of a task that was enqueued, in order. */
  function EnqueuedText(steps: seq<Step>, k: Key): string {
    if steps == [] then "" else EnqueuedText(steps[..|steps| - 1], k) + Gain(steps[|steps| - 1], k)
  }

  /** All text of a task the batcher accounts for. */
  function KnownText(s: Streams, k: Key): string {
    LeftText(s.outputs, k) + BufferedText(s, k)
  }

  lemma {:induction false} LeftTextAppend(outputs: seq<Output>, o: Output, k: Key)
    ensures LeftText(outputs + [o], k) == LeftText(outputs, k) + TextOf(o, k)
  {
    assert (outputs + [o])[..|outputs|] == outputs;
  }

  // Flushing and dropping move text from the buffer to the output, nothing else.
  lemma {:induction false} FlushConservesText(s: Streams, key: Key, k: Key)
    ensures KnownText(Flush(s, key), k) == KnownText(s, k)
  {
    if key in s.buffers { LeftTextAppend(s.outputs, Flush(s, key).outputs[|s.outputs|], k); }
  }

  lemma {:induction false} DropConservesText(s: Streams, key: Key, k: Key)
    ensures KnownText(Drop(s, key), k) == KnownText(s, k)
  {
    if key in s.buffers { LeftTextAppend(s.outputs, Drop(s, key).outputs[|s.outputs|], k); }
  }

  lemma {:induction false} TerminalConservesText(s: Streams, key: Key, k: Key)
    ensures KnownText(DispatchTerminal(s, key), k) == KnownText(s, k)
  {
    FlushConservesText(s, key, k);
    var out := Flush(s, key).outputs;
    LeftTextAppend(out, Terminal(key), k);
    assert LeftText(out, k) + "" == LeftText(out, k);
    assert BufferedText(DispatchTerminal(s, key), k) == BufferedText(Flush(s, key), k);
  }

  lemma {:induction false} EnqueueAppendsText(s: Streams, d: Delta, k: Key)
    ensures BufferedText(Enqueue(s, d), k) == BufferedText(s, k) + Gain(Receive(d), k)
    ensures KnownText(Enqueue(s, d), k) == KnownText(s, k) + Gain(Receive(d), k)
  {
    if d.taskId != "" && d.text.Some? && KeyOf(d) == k {
      FlattenOne(d.text.value);
      if k in s.buffers {
        FlattenAppend(s.buffers[k].chunks, [d.text.value]);
      }
    }
    assert Enqueue(s, d).outputs == s.outputs;
    Associates(LeftText(s.outputs, k), BufferedText(s, k), Gain(Receive(d), k));
  }

  lemma {:induction false} Associates(a: string, b: string, c: string)
    ensures a + (b + c) == (a + b) + c
  {
  }

  lemma {:induction false} FireConservesText(s: Streams, id: nat, frames: bool, k: Key)
    ensures KnownText(Fire(s, id, frames), k) == KnownText(s, k)
  {
    if id in s.timers {
      var t := s.timers[id];
      var mid := Forget(s.(timers := s.timers - {id}), t);
      assert BufferedText(mid, k) == BufferedText(s, k) && mid.outputs == s.outputs;
      if t.kind.Delay? {
        assert BufferedText(AlignFlush(mid, t, frames), k) == BufferedText(mid, k);
      } else {
        FlushConservesText(mid, t.key, k);
      }
    }
  }

  lemma {:induction false} NextConservesText(s: Streams, step: Step, k: Key)
    ensures KnownText(Next(s, step), k) == KnownText(s, k) + Gain(step, k)
  {
    if step.Receive? {
      EnqueueAppendsText(s, step.delta, k);
    } else {
      assert Gain(step, k) == "" && KnownText(s, k) + "" == KnownText(s, k);
      RemovalConservesText(s, step, k);
    }
  }

  lemma {:induction false} RemovalConservesText(s: Streams, step: Step, k: Key)
    requires !step.Receive?
    ensures KnownText(Next(s, step), k) == KnownText(s, k)
  {
    match step
    case TimerFires(id, frames) => FireConservesText(s, id, frames, k);
    case FlushTask(key) => FlushConservesText(s, key, k);
    case Discard(key) => DropConservesText(s, key, k);
    case TerminalEvent(key) => TerminalConservesText(s, key, k);
  }

  /** Conservation: for every task and in every run, the text that left the batcher
      followed by the buffered text is exactly the enqueued text in order. */
  lemma {:induction false} TextIsConserved(steps: seq<Step>, k: Key)
    ensures LeftText(Run(steps).outputs, k) + BufferedText(Run(steps), k) == EnqueuedText(steps, k)
    decreases |steps|
  {
    if steps != [] {
      var init := steps[..|steps| - 1];
      TextIsConserved(init, k);
      NextConservesText(Run(init), steps[|steps| - 1], k);
    }
  }

  predicate NothingDropped(outputs: seq<Output>) {
    forall o :: o in outputs ==> !o.Dropped?
  }

  /** Nothing is dropped unless a step drops it. */
  lemma {:induction false} OnlyDiscardDrops(steps: seq<Step>)
    requires forall step :: step in steps ==> !step.Discard?
    ensures NothingDropped(Run(steps).outputs)
    decreases |steps|
  {
    if steps != [] {
      assert steps[|steps| - 1] in steps;
      OnlyDiscardDrops(steps[..|steps| - 1]);
    }
  }

  /** A terminal event comes out after all text its task was sent before it. */
  lemma {:induction false} TerminalComesAfterText(steps: seq<Step>, k: Key)
    ensures var s := Run(steps + [TerminalEvent(k)]);
            && s.outputs != [] && s.outputs[|s.outputs| - 1] == Terminal(k)
            && LeftText(s.outputs[..|s.outputs| - 1], k) == EnqueuedText(steps, k)
            && k !in s.buffers
  {
    var all := steps + [TerminalEvent(k)];
    assert all[..|all| - 1] == steps;
    var before := Run(steps);
    TextIsConserved(steps, k);
    FlushConservesText(before, k, k);
    assert DispatchTerminal(before, k).outputs[..|DispatchTerminal(before, k).outputs| - 1] == Flush(before, k).outputs;
  }

  // ---- the batcher object -------------------------------------------------------------

  class StreamDeltaBatcher {
    var buffers: map<Key, Buffer>
    var timers: map<nat, Timer>
    var nextId: nat
    var outputs: seq<Output>

    ghost function Model(): Streams
      reads this
    {
      Streams(buffers, timers, nextId, outputs)
    }

    constructor ()
      ensures Model() == INITIAL
    {
      buffers, timers, nextId, outputs := map[], map[], 0, [];
    }

    method EnqueueDelta(delta: Delta)
      modifies this
      ensures Model() == Enqueue(old(Model()), delta)
    {
      if delta.taskId == "" || delta.text.None? { return; }
      var key := KeyOf(delta);
      if key in buffers {
        var existing := buffers[key];
        existing := existing.(chunks := existing.chunks + [delta.text.value]);
        if delta.route.Some? { existing := existing.(route := delta.route); }
        buffers := buffers[key := existing];
        return;
      }
      var id := nextId;
      timers := timers[id + 1 := Timer(Delay, key, id)];
      buffers := buffers[key := Buffer(id, [delta.text.value], delta.route, Some(id + 1), None, None)];
      nextId := nextId + 2;
    }

    method FlushKey(key: Key) returns (flushed: bool)
      modifies this
      ensures Model() == Flush(old(Model()), key)
      ensures flushed <==> key in old(buffers)
    {
      if key !in buffers { return false; }
      var buffer := buffers[key];
      CancelSchedule(buffer);
      buffers := buffers - {key};
      outputs := outputs + [Delivered(key, Flatten(buffer.chunks), buffer.route)];
      return true;
    }

    method CancelSchedule(buffer: Buffer)
      modifies `timers
      ensures timers == Cancelled(old(timers), buffer)
    {
      if buffer.delay.Some? { timers := timers - {buffer.delay.value}; }
      if buffer.frame.Some? { timers := timers - {buffer.frame.value}; }
      if buffer.fallback.Some? { timers := timers - {buffer.fallback.value}; }
    }

    method OnTimer(id: nat, frames: bool)
      requires id in timers
      modifies this
      ensures Model() == Fire(old(Model()), id, frames)
    {
      var t := timers[id];
      timers := timers - {id};
      var current := t.key in buffers && buffers[t.key].id == t.buffer;
      if current {
        var b := buffers[t.key];
        match t.kind {
          case Delay => b := b.(delay := None);
          case Frame => b := b.(frame := None);
          case Fallback => b := b.(fallback := None);
        }
        buffers := buffers[t.key := b];
      }
      if t.kind.Delay? {
        if current {
          var b := buffers[t.key];
          timers := timers[nextId + 1 := Timer(Fallback, t.key, t.buffer)];
          if frames { timers := timers[nextId := Timer(Frame, t.key, t.buffer)]; }
          buffers := buffers[t.key := b.(frame := if frames then Some(nextId) else None, fallback := Some(nextId + 1))];
          nextId := nextId + 2;
        }
      } else {
        var _ := FlushKey(t.key);
      }
    }
  }
}
