/**
 * The non-blocking appender (tracing-appender/src/non_blocking.rs and worker.rs): any number of
 * threads writing through a bounded channel, one worker that drains it, and the guard that shuts
 * the worker down. One step is one channel operation, one call into the writer, or one atomic
 * operation on the drop counter. A timeout may strike at any moment.
 */
module NonBlocking {
  type Thread = nat
  type Line = seq<int>

  const USIZE_MAX: nat := 0xFFFF_FFFF_FFFF_FFFF

  datatype Msg = Text(line: Line) | Shutdown

  datatype Config = Config(capacity: nat, lossy: bool)

  // ----- The worker's handling of one message -----

  datatype WorkerState = Empty | Disconnected | Continue | ShutDown

  /** What `recv` or `try_recv` gives. */
  datatype Received = Got(msg: Msg) | NothingYet | SendersGone

  /** An `io::Result<WorkerState>`. */
  datatype Outcome = Done(state: WorkerState) | IoError

  /** `handle_recv` and `handle_try_recv`, given whether `write_all` succeeds if it is called. */
  function Handle(r: Received, ok: bool): Outcome {
    match r
    case Got(Text(_)) => if ok then Done(Continue) else IoError
    case Got(Shutdown) => Done(ShutDown)
    case NothingYet => Done(Empty)
    case SendersGone => Done(Disconnected)
  }

  /** A call into the underlying writer. */
  datatype Act = WriteAll(line: Line, ok: bool) | Flush(ok: bool)

  // ----- The system -----

  datatype ProducerPc =
    | Ready
    | TrySend(line: Line)        // lossy
    | IncrLoad                   // incr_saturating: about to load the counter
    | IncrCas(seen: nat)         // about to compare-exchange it
    | BlockingSend(line: Line)   // not lossy

  datatype WorkerPc =
    | Recv
    | Writing(line: Line)
    | TryRecv
    | Flushing(state: WorkerState)
    | Awaiting(state: WorkerState)   // in shutdown.recv()
    | LastFlush
    | Exited

  datatype GuardPc = Held | Sending | Meeting | Dropped(met: bool)

  /** The bounded channel. As history, the messages that entered it and that left it. */
  datatype Channel = Channel(queue: seq<Msg>, accepted: seq<Msg>, received: seq<Msg>)

  /** The drop counter. As history, the increments that took effect, and the `write` calls that
      returned `Ok` and `Err`. */
  datatype Tally = Tally(counter: nat, counted: nat, completed: nat, refused: nat)

  /** `log` (the calls into the writer) and `metAt` (its length when guard and worker met) are history. */
  datatype State = State(
    chan: Channel, tally: Tally,
    producers: map<Thread, ProducerPc>, producersGone: bool, worker: WorkerPc, guardPc: GuardPc,
    log: seq<Act>, metAt: nat
  ) {
    function Producer(t: Thread): ProducerPc {
      if t in producers then producers[t] else Ready
    }

    /** All senders of the line channel are gone. */
    predicate NoSenders() {
      producersGone && guardPc.Dropped?
    }
  }

  ghost predicate Init(s: State) {
    s == State(Channel([], [], []), Tally(0, 0, 0, 0), map[], false, Recv, Held, [], 0)
  }

  datatype Action =
    | Begin(t: Thread, line: Line)     // NonBlocking::write
    | Produce(t: Thread)               // its next step
    | DropProducers                    // the last NonBlocking handle goes away
    | Work(ok: bool)                   // the worker's next step; `ok` is the writer's answer
    | DropGuard
    | SendShutdown | Meet | TimeOut    // WorkerGuard::drop

  predicate Room(c: Config, s: State) {
    |s.chan.queue| < c.capacity && !s.worker.Exited?
  }

  /** `recv` blocks on an empty channel, and `shutdown.recv()` until the guard is gone or meets the worker. */
  predicate WorkerCanGo(s: State) {
    match s.worker
    case Recv => s.chan.queue != [] || s.NoSenders()
    case Awaiting(_) => s.guardPc.Dropped?
    case Exited => false
    case _ => true
  }

  ghost predicate Enabled(c: Config, s: State, a: Action) {
    match a
    case Begin(t, _) => s.Producer(t).Ready? && !s.producersGone
    case Produce(t) =>
      && !s.Producer(t).Ready?
      && (s.Producer(t).BlockingSend? ==> Room(c, s) || s.worker.Exited?)
    case DropProducers => forall t :: s.Producer(t).Ready?
    case Work(_) => WorkerCanGo(s)
    case DropGuard => s.guardPc.Held?
    case SendShutdown => s.guardPc.Sending? && Room(c, s)
    case Meet => s.guardPc.Meeting? && s.worker.Awaiting?
    case TimeOut => s.guardPc.Sending? || s.guardPc.Meeting?
  }

  function Perform(c: Config, s: State, a: Action): State
    requires Enabled(c, s, a)
  {
    match a
    case Begin(t, line) => s.(producers := s.producers[t := if c.lossy then TrySend(line) else BlockingSend(line)])
    case Produce(t) => ProducerStep(c, s, t)
    case DropProducers => s.(producersGone := true)
    case Work(ok) => WorkerStep(s, ok)
    case DropGuard => s.(guardPc := Sending)
    case SendShutdown => s.(chan := Enqueue(s.chan, Shutdown), guardPc := Meeting)
    case Meet => s.(guardPc := Dropped(true), worker := LastFlush, metAt := |s.log|)
    case TimeOut => s.(guardPc := Dropped(false))
  }

  function Enqueue(ch: Channel, m: Msg): Channel {
    ch.(queue := ch.queue + [m], accepted := ch.accepted + [m])
  }

  function Saturated(n: nat): nat {
    if n >= USIZE_MAX then USIZE_MAX else n + 1
  }

  function ProducerStep(c: Config, s: State, t: Thread): State {
    var (ch, tally, pc) := ProducerEffect(c, s, s.Producer(t));
    s.(chan := ch, tally := tally, producers := s.producers[t := pc])
  }

  function ProducerEffect(c: Config, s: State, pc: ProducerPc): (Channel, Tally, ProducerPc) {
    var n := s.tally;
    match pc
    case Ready => (s.chan, n, Ready)
    case TrySend(line) =>
      if Room(c, s) then (Enqueue(s.chan, Text(line)), n.(completed := n.completed + 1), Ready)
      else (s.chan, n, IncrLoad)
    case IncrLoad =>
      if n.counter == USIZE_MAX then (s.chan, n.(counted := n.counted + 1, completed := n.completed + 1), Ready)
      else (s.chan, n, IncrCas(n.counter))
    case IncrCas(seen) =>
      if n.counter == seen
      then (s.chan, n.(counter := Saturated(seen), counted := n.counted + 1, completed := n.completed + 1), Ready)
      else (s.chan, n, IncrCas(n.counter))
    case BlockingSend(line) =>
      if s.worker.Exited? then (s.chan, n.(refused := n.refused + 1), Ready)
      else (Enqueue(s.chan, Text(line)), n.(completed := n.completed + 1), Ready)
  }

  /** The next result of `recv` or `try_recv`. */
  function Incoming(s: State): Received {
    if s.chan.queue != [] then Got(s.chan.queue[0]) else if s.NoSenders() then SendersGone else NothingYet
  }

  function Take(ch: Channel): Channel {
    if ch.queue == [] then ch else ch.(queue := ch.queue[1..], received := ch.received + [ch.queue[0]])
  }

  /** Where the worker goes with what it received. */
  function Receiving(r: Received): WorkerPc {
    match r
    case Got(Text(line)) => Writing(line)
    case Got(Shutdown) => Flushing(ShutDown)
    case NothingYet => Flushing(Empty)
    case SendersGone => Flushing(Disconnected)
  }

  function WorkerStep(s: State, ok: bool): State {
    match s.worker
    case Recv => s.(chan := Take(s.chan), worker := Receiving(Incoming(s)))
    case TryRecv => s.(chan := Take(s.chan), worker := Receiving(Incoming(s)))
    // an error ends this round of `work` without a flush
    case Writing(line) =>
      s.(log := s.log + [WriteAll(line, ok)], worker := if Handle(Got(Text(line)), ok).IoError? then Recv else TryRecv)
    case Flushing(state) =>
      s.(log := s.log + [Flush(ok)],
         worker := if ok && (state.ShutDown? || state.Disconnected?) then Awaiting(state) else Recv)
    case Awaiting(_) => s.(worker := LastFlush)
    case LastFlush => s.(log := s.log + [Flush(ok)], worker := Exited)
    case Exited => s
  }

  ghost predicate Execution(c: Config, states: seq<State>, actions: seq<Action>) {
    && |states| == |actions| + 1
    && Init(states[0])
    && forall i :: 0 <= i < |actions| ==>
         Enabled(c, states[i], actions[i]) && states[i + 1] == Perform(c, states[i], actions[i])
  }

  // ----- Lines in messages and in calls -----

  function Lines(ms: seq<Msg>): seq<Line> {
    if ms == [] then []
    else Lines(ms[..|ms| - 1]) + if ms[|ms| - 1].Text? then [ms[|ms| - 1].line] else []
  }

  /** The lines handed to `write_all`, whether or not it succeeded. */
  function Handed(log: seq<Act>): seq<Line> {
    if log == [] then []
    else Handed(log[..|log| - 1]) + if log[|log| - 1].WriteAll? then [log[|log| - 1].line] else []
  }

  lemma LinesAppend(ms: seq<Msg>, m: Msg)
    ensures Lines(ms + [m]) == Lines(ms) + if m.Text? then [m.line] else []
  {
    assert (ms + [m])[..|ms|] == ms;
  }

  lemma HandedAppend(log: seq<Act>, a: Act)
    ensures Handed(log + [a]) == Handed(log) + if a.WriteAll? then [a.line] else []
  {
    assert (log + [a])[..|log|] == log;
  }

  lemma {:induction false} LinesConcat(xs: seq<Msg>, ys: seq<Msg>)
    ensures Lines(xs + ys) == Lines(xs) + Lines(ys)
  {
    if ys == [] {
      assert xs + ys == xs;
    } else {
      var init, last := ys[..|ys| - 1], ys[|ys| - 1];
      assert xs + ys == (xs + init) + [last] && ys == init + [last];
      LinesAppend(xs + init, last);
      LinesConcat(xs, init);
      LinesAppend(init, last);
    }
  }

  // ----- The invariant -----

  ghost predicate Fifo(c: Config, s: State) {
    && s.chan.accepted == s.chan.received + s.chan.queue
    && Lines(s.chan.received) == Handed(s.log) + (if s.worker.Writing? then [s.worker.line] else [])
    && |s.chan.queue| <= c.capacity
  }

  ghost predicate Counts(c: Config, s: State) {
    && s.tally.counter == (if s.tally.counted < USIZE_MAX then s.tally.counted else USIZE_MAX)
    && s.tally.completed == |Lines(s.chan.accepted)| + s.tally.counted
    && (c.lossy ==> s.tally.refused == 0)
    && (!c.lossy ==> s.tally.counted == 0)
    && (forall t :: if c.lossy then !s.Producer(t).BlockingSend?
                    else s.Producer(t).Ready? || s.Producer(t).BlockingSend?)
    && (forall t :: s.Producer(t).IncrCas? ==> s.Producer(t).seen <= s.tally.counter)
  }

  /** The guard's message is in the channel's history once, if the guard got to send it. */
  ghost predicate OneShutdown(s: State) {
    && (forall i, j :: 0 <= i < j < |s.chan.accepted| ==> s.chan.accepted[i].Text? || s.chan.accepted[j].Text?)
    && (s.guardPc.Held? || s.guardPc.Sending? ==> forall m <- s.chan.accepted :: m.Text?)
  }

  ghost predicate WorkerOk(s: State) {
    && (forall st :: s.worker == Flushing(st) || s.worker == Awaiting(st) ==>
          && (st == ShutDown ==> s.chan.received != [] && s.chan.received[|s.chan.received| - 1].Shutdown?)
          && (st == Disconnected ==> s.NoSenders())
          && st != Continue)
    && (s.worker.Awaiting? ==>
          && (s.worker.state == ShutDown || s.worker.state == Disconnected)
          && s.log != [] && s.log[|s.log| - 1] == Flush(true))
  }

  /** At the meeting, all lines before the guard's message had been handed over and then flushed. */
  ghost predicate Met(s: State, n: nat) {
    && 0 < n <= |s.log| && s.log[n - 1] == Flush(true)
    && exists at :: 0 <= at < |s.chan.accepted| && s.chan.accepted[at].Shutdown?
         && Handed(s.log[..n]) == Lines(s.chan.accepted[..at])
  }

  ghost predicate Inv(c: Config, s: State) {
    Fifo(c, s) && Counts(c, s) && OneShutdown(s) && WorkerOk(s) && (s.guardPc == Dropped(true) ==> Met(s, s.metAt))
  }

  // ----- Every step keeps it -----

  lemma FifoKept(c: Config, s: State, a: Action)
    requires Fifo(c, s) && Enabled(c, s, a)
    ensures Fifo(c, Perform(c, s, a))
    ensures s.chan.accepted <= Perform(c, s, a).chan.accepted && s.log <= Perform(c, s, a).log
  {
    var s' := Perform(c, s, a);
    if a.Work? {
      WorkerKeepsFifo(c, s, a.ok);
    } else if a.SendShutdown? {
      EnqueueKeepsFifo(s.chan, Shutdown);
    } else if a.Produce? {
      ProducerKeepsFifo(c, s, a.t);
    }
  }

  lemma ProducerKeepsFifo(c: Config, s: State, t: Thread)
    requires Fifo(c, s) && Enabled(c, s, Produce(t))
    ensures Fifo(c, ProducerStep(c, s, t)) && s.chan.accepted <= ProducerStep(c, s, t).chan.accepted
  {
    match s.Producer(t) {
      case TrySend(line) => EnqueueKeepsFifo(s.chan, Text(line));
      case BlockingSend(line) => EnqueueKeepsFifo(s.chan, Text(line));
      case _ =>
    }
  }

  lemma EnqueueKeepsFifo(ch: Channel, m: Msg)
    requires ch.accepted == ch.received + ch.queue
    ensures Enqueue(ch, m).accepted == Enqueue(ch, m).received + Enqueue(ch, m).queue
    ensures ch.accepted <= Enqueue(ch, m).accepted
  {
  }

  lemma TakeKeepsFifo(ch: Channel)
    requires ch.accepted == ch.received + ch.queue
    ensures Take(ch).accepted == Take(ch).received + Take(ch).queue
    ensures ch.queue != [] ==> Lines(Take(ch).received) == Lines(ch.received) + (if ch.queue[0].Text? then [ch.queue[0].line] else [])
  {
    if ch.queue != [] {
      LinesAppend(ch.received, ch.queue[0]);
    }
  }

  lemma WorkerKeepsFifo(c: Config, s: State, ok: bool)
    requires Fifo(c, s) && WorkerCanGo(s)
    ensures Fifo(c, WorkerStep(s, ok))
    ensures s.log <= WorkerStep(s, ok).log
  {
    match s.worker {
      case Recv => TakeKeepsFifo(s.chan);
      case TryRecv => TakeKeepsFifo(s.chan);
      case Writing(line) => HandedAppend(s.log, WriteAll(line, ok));
      case Flushing(_) => HandedAppend(s.log, Flush(ok));
      case LastFlush => HandedAppend(s.log, Flush(ok));
      case _ =>
    }
  }

  lemma CountsKept(c: Config, s: State, a: Action)
    requires Counts(c, s) && Enabled(c, s, a)
    ensures Counts(c, Perform(c, s, a))
  {
    var s' := Perform(c, s, a);
    LinesAppend(s.chan.accepted, Shutdown);
    if a.Produce? {
      ProducerKeepsCounts(c, s, a.t);
    } else {
      assert forall u :: s'.Producer(u) == s.Producer(u) || (a.Begin? && u == a.t);
    }
  }

  lemma ProducerKeepsCounts(c: Config, s: State, t: Thread)
    requires Counts(c, s) && Enabled(c, s, Produce(t))
    ensures Counts(c, ProducerStep(c, s, t))
  {
    var s' := ProducerStep(c, s, t);
    assert forall u :: u != t ==> s'.Producer(u) == s.Producer(u);
    match s.Producer(t) {
      case TrySend(line) => LinesAppend(s.chan.accepted, Text(line));
      case BlockingSend(line) => LinesAppend(s.chan.accepted, Text(line));
      case _ =>
    }
  }

  lemma ShutdownKept(c: Config, s: State, a: Action)
    requires OneShutdown(s) && Enabled(c, s, a)
    ensures OneShutdown(Perform(c, s, a))
  {
  }

  lemma WorkerOkKept(c: Config, s: State, a: Action)
    requires WorkerOk(s) && Enabled(c, s, a)
    ensures WorkerOk(Perform(c, s, a))
  {
  }

  /** Guard and worker can only meet over the guard's own message. */
  lemma MeetingIsAfterFlush(c: Config, s: State)
    requires Inv(c, s) && Enabled(c, s, Meet)
    ensures Met(Perform(c, s, Meet), |s.log|)
  {
    assert s.worker == Awaiting(ShutDown);
    var at := |s.chan.received| - 1;
    assert s.chan.accepted[at] == Shutdown && s.chan.accepted[..at] == s.chan.received[..at];
    assert s.chan.received == s.chan.received[..at] + [Shutdown];
    LinesAppend(s.chan.received[..at], Shutdown);
    var s' := Perform(c, s, Meet);
    assert s'.log[..|s.log|] == s.log;
    assert Handed(s.log) + [] == Handed(s.log);
    assert s'.chan.accepted[at].Shutdown? && Handed(s'.log[..|s.log|]) == Lines(s'.chan.accepted[..at]);
  }

  lemma MetKept(s: State, s': State, n: nat)
    requires Met(s, n) && s.chan.accepted <= s'.chan.accepted && s.log <= s'.log
    ensures Met(s', n)
  {
    var at :| 0 <= at < |s.chan.accepted| && s.chan.accepted[at].Shutdown? && Handed(s.log[..n]) == Lines(s.chan.accepted[..at]);
    assert s'.log[..n] == s.log[..n] && s'.chan.accepted[..at] == s.chan.accepted[..at];
  }

  lemma StepKeepsInv(c: Config, s: State, a: Action)
    requires Inv(c, s) && Enabled(c, s, a)
    ensures Inv(c, Perform(c, s, a))
  {
    FifoKept(c, s, a);
    CountsKept(c, s, a);
    ShutdownKept(c, s, a);
    WorkerOkKept(c, s, a);
    if a.Meet? { MeetingIsAfterFlush(c, s); }
    else if s.guardPc == Dropped(true) { MetKept(s, Perform(c, s, a), s.metAt); }
  }

  lemma {:induction false} InvHolds(c: Config, states: seq<State>, actions: seq<Action>, i: nat)
    requires Execution(c, states, actions) && i < |states|
    ensures Inv(c, states[i])
  {
    if i > 0 {
      InvHolds(c, states, actions, i - 1);
      StepKeepsInv(c, states[i - 1], actions[i - 1]);
    }
  }

  // ----- Every execution -----

  /**
   * What was accepted is what the worker received followed by what is queued, the queue never
   * exceeds its capacity, and each received line goes to `write_all` exactly once, in the order of
   * acceptance (only the line in the worker's hands is still to go).
   */
  lemma AcceptedLinesAreHandedOver(c: Config, states: seq<State>, actions: seq<Action>, i: nat)
    requires Execution(c, states, actions) && i < |states|
    ensures
      var s := states[i];
      && s.chan.accepted == s.chan.received + s.chan.queue && |s.chan.queue| <= c.capacity
      && Handed(s.log) <= Lines(s.chan.accepted)
      && Lines(s.chan.accepted) == Handed(s.log) + (if s.worker.Writing? then [s.worker.line] else []) + Lines(s.chan.queue)
  {
    InvHolds(c, states, actions, i);
    var s := states[i];
    LinesConcat(s.chan.received, s.chan.queue);
  }

  /**
   * A lossy appender loses nothing silently: the writes that returned are the accepted lines plus
   * the counted drops. The counter is the number of drops, saturating; without lossy mode it is 0.
   */
  lemma DropsAreCounted(c: Config, states: seq<State>, actions: seq<Action>, i: nat)
    requires Execution(c, states, actions) && i < |states|
    ensures
      var s := states[i];
      && s.tally.completed == |Lines(s.chan.accepted)| + s.tally.counted
      && s.tally.counter == (if s.tally.counted < USIZE_MAX then s.tally.counted else USIZE_MAX)
      && (c.lossy ==> s.tally.refused == 0)
      && (!c.lossy ==> s.tally.counter == 0)
  {
    InvHolds(c, states, actions, i);
  }

  lemma CountsHold(c: Config, states: seq<State>, actions: seq<Action>, i: nat)
    requires Execution(c, states, actions) && i < |states|
    ensures Counts(c, states[i])
  {
    InvHolds(c, states, actions, i);
  }

  /** The counter never wraps around and never goes back. */
  lemma {:induction false} CounterNeverFalls(c: Config, states: seq<State>, actions: seq<Action>, i: nat, j: nat)
    requires Execution(c, states, actions) && i <= j < |states|
    ensures states[i].tally.counter <= states[j].tally.counter <= USIZE_MAX
    ensures states[i].tally.counted <= states[j].tally.counted
  {
    if i == j {
      CountsHold(c, states, actions, i);
    } else {
      CounterNeverFalls(c, states, actions, i, j - 1);
      CountsHold(c, states, actions, j - 1);
      CounterStep(c, states[j - 1], actions[j - 1]);
    }
  }

  lemma CounterStep(c: Config, s: State, a: Action)
    requires Counts(c, s) && Enabled(c, s, a)
    ensures
      var n, n' := s.tally, Perform(c, s, a).tally;
      n.counter <= n'.counter <= USIZE_MAX && n.counted <= n'.counted
  {
  }

  /**
   * If the guard's drop meets the worker, then every line enqueued before the shutdown message had
   * been handed to `write_all` by then, and a successful flush had followed the last of them,
   * whatever became of the individual writes.
   */
  lemma MeetingMeansFlushed(c: Config, states: seq<State>, actions: seq<Action>, i: nat) returns (at: nat)
    requires Execution(c, states, actions) && i < |states| && states[i].guardPc == Dropped(true)
    ensures
      var s := states[i];
      && at < |s.chan.accepted| && s.chan.accepted[at].Shutdown?
      && (forall k :: 0 <= k < |s.chan.accepted| && k != at ==> s.chan.accepted[k].Text?)
      && 0 < s.metAt <= |s.log| && s.log[s.metAt - 1] == Flush(true)
      && Handed(s.log[..s.metAt]) == Lines(s.chan.accepted[..at])
  {
    InvHolds(c, states, actions, i);
    var s := states[i];
    at :| 0 <= at < |s.chan.accepted| && s.chan.accepted[at].Shutdown? && Handed(s.log[..s.metAt]) == Lines(s.chan.accepted[..at]);
  }

  // ----- What one call does -----

  /** A thread's call moves on by its own steps only. */
  lemma {:induction false} OthersLeaveTheProducer(c: Config, states: seq<State>, actions: seq<Action>, i: nat, j: nat, t: Thread)
    requires Execution(c, states, actions) && i <= j < |states|
    requires forall k :: i <= k < j ==> (actions[k].Begin? || actions[k].Produce? ==> actions[k].t != t)
    ensures states[j].Producer(t) == states[i].Producer(t)
  {
    if i < j {
      OthersLeaveTheProducer(c, states, actions, i, j - 1, t);
    }
  }

  /**
   * A lossy write is accepted, as the line it was given and behind everything accepted before, exactly
   * if there is room in the channel and the worker has not left when it tries. Otherwise nothing is
   * enqueued, and the call goes on to count the drop.
   */
  lemma LossyWriteIsDroppedIff(c: Config, states: seq<State>, actions: seq<Action>, i: nat, j: nat, t: Thread, line: Line)
    requires Execution(c, states, actions) && i < j < |actions| && c.lossy
    requires actions[i] == Begin(t, line) && actions[j] == Produce(t)
    requires forall k :: i < k < j ==> (actions[k].Begin? || actions[k].Produce? ==> actions[k].t != t)
    ensures
      var s, s' := states[j], states[j + 1];
      if |s.chan.queue| < c.capacity && s.worker != Exited then
        && s'.chan.accepted == s.chan.accepted + [Text(line)] && s'.chan.queue == s.chan.queue + [Text(line)]
        && s'.Producer(t) == Ready && s'.tally.completed == s.tally.completed + 1 && s'.tally.counted == s.tally.counted
      else
        s'.chan == s.chan && s'.tally == s.tally && s'.Producer(t) == IncrLoad
  {
    OthersLeaveTheProducer(c, states, actions, i + 1, j, t);
  }

  /** A write that is not lossy waits for room, and is refused exactly if the worker has left. */
  lemma BlockingWriteIsRefusedIff(c: Config, states: seq<State>, actions: seq<Action>, i: nat, j: nat, t: Thread, line: Line)
    requires Execution(c, states, actions) && i < j < |actions| && !c.lossy
    requires actions[i] == Begin(t, line) && actions[j] == Produce(t)
    requires forall k :: i < k < j ==> (actions[k].Begin? || actions[k].Produce? ==> actions[k].t != t)
    ensures
      var s, s' := states[j], states[j + 1];
      && s'.Producer(t) == Ready
      && if s.worker == Exited then
           s'.chan == s.chan && s'.tally == s.tally.(refused := s.tally.refused + 1)
         else
           && |s.chan.queue| < c.capacity && s'.chan.accepted == s.chan.accepted + [Text(line)]
           && s'.chan.queue == s.chan.queue + [Text(line)] && s'.tally == s.tally.(completed := s.tally.completed + 1)
  {
    OthersLeaveTheProducer(c, states, actions, i + 1, j, t);
  }

  /** Counting a drop takes a load and a compare-exchange, again if another thread came in between; it
      adds one and ends the call. A counter at its maximum stays there. */
  lemma CountingADrop(c: Config, states: seq<State>, actions: seq<Action>, i: nat, t: Thread)
    requires Execution(c, states, actions) && i < |actions| && actions[i] == Produce(t)
    requires states[i].Producer(t).IncrLoad? || states[i].Producer(t).IncrCas?
    ensures
      var pc, n, n', pc' := states[i].Producer(t), states[i].tally, states[i + 1].tally, states[i + 1].Producer(t);
      && states[i + 1].chan == states[i].chan
      && (n.counter == USIZE_MAX ==> n'.counter == USIZE_MAX && (pc.IncrLoad? ==> pc' == Ready && n'.counted == n.counted + 1))
      && (pc.IncrLoad? && n.counter < USIZE_MAX ==> pc' == IncrCas(n.counter) && n' == n)
      && (pc.IncrCas? && pc.seen == n.counter && n.counter < USIZE_MAX ==>
            pc' == Ready && n'.counter == n.counter + 1 && n'.counted == n.counted + 1)
      && (pc.IncrCas? && pc.seen != n.counter ==> pc' == IncrCas(n.counter) && n' == n)
  {
    InvHolds(c, states, actions, i);
  }

  // ----- How the worker leaves -----

  /** The actions can happen one after another from `s`, and lead to `s'`. */
  ghost predicate Leads(c: Config, s: State, actions: seq<Action>, s': State)
    decreases actions
  {
    if actions == [] then s' == s
    else Enabled(c, s, actions[0]) && Leads(c, Perform(c, s, actions[0]), actions[1..], s')
  }

  /** A worker that has left has flushed once more after everything it wrote. */
  lemma {:induction false} LeavesFlushed(c: Config, states: seq<State>, actions: seq<Action>, i: nat)
    requires Execution(c, states, actions) && i < |states| && states[i].worker == Exited
    ensures states[i].log != [] && states[i].log[|states[i].log| - 1].Flush?
  {
    if states[i - 1].worker == Exited {
      LeavesFlushed(c, states, actions, i - 1);
    }
  }

  /** A worker that waits for the guard goes on when that is gone, flushes and leaves. */
  lemma WaitingWorkerLeaves(c: Config, s: State, first: bool, ok: bool)
    requires s.worker.Awaiting? && s.guardPc.Dropped?
    ensures Enabled(c, s, Work(first))
    ensures
      var s1 := Perform(c, s, Work(first));
      && Enabled(c, s1, Work(ok))
      && Perform(c, s1, Work(ok)) == s.(worker := Exited, log := s.log + [Flush(ok)])
  {
  }

  /** What a worker does that receives: it takes the oldest message if there is one, finds the senders gone
      if there is none and nobody can send, and otherwise flushes and goes back to waiting. */
  lemma WorkerReceives(c: Config, s: State, ok: bool)
    requires (s.worker.Recv? || s.worker.TryRecv?) && Enabled(c, s, Work(ok))
    ensures
      var s' := Perform(c, s, Work(ok));
      && (s.chan.queue != [] ==>
            && s'.chan.received == s.chan.received + [s.chan.queue[0]] && s'.chan.queue == s.chan.queue[1..]
            && s'.worker == (if s.chan.queue[0].Text? then Writing(s.chan.queue[0].line) else Flushing(ShutDown)))
      && (s.chan.queue == [] ==>
            && s'.chan == s.chan
            && s'.worker == Flushing(if s.producersGone && s.guardPc.Dropped? then Disconnected else Empty))
  {
  }

  /** How far a worker without senders is from leaving, behind the messages that are left. */
  function ToLeave(s: State): nat {
    match s.worker
    case Exited => 0
    case LastFlush => 1
    case Awaiting(_) => 2
    case Flushing(st) => if st == ShutDown || st == Disconnected then 3 else 5
    case Recv => 4
    case TryRecv => 4
    case Writing(_) => 5
  }

  /** Once all senders are gone the worker leaves, if its writes and flushes succeed. */
  lemma {:induction false} WorkerLeavesWithoutSenders(c: Config, s: State) returns (actions: seq<Action>, s': State)
    requires Inv(c, s) && s.NoSenders()
    ensures Leads(c, s, actions, s') && s'.worker == Exited && forall a <- actions :: a == Work(true)
    decreases |s.chan.queue|, ToLeave(s)
  {
    if s.worker == Exited {
      actions, s' := [], s;
    } else {
      var next := Perform(c, s, Work(true));
      StepKeepsInv(c, s, Work(true));
      actions, s' := WorkerLeavesWithoutSenders(c, next);
      assert ([Work(true)] + actions)[1..] == actions;
      actions := [Work(true)] + actions;
    }
  }

  /** The senders are gone, and so is everything they sent. */
  ghost predicate Drained(s: State) {
    && s.NoSenders() && s.chan.queue == [] && (forall t :: s.Producer(t).Ready?)
    && Handed(s.log) == Lines(s.chan.accepted)
  }

  /** No call is under way once the last handle is gone. */
  ghost predicate NoCalls(s: State) {
    s.producersGone ==> forall t :: s.Producer(t).Ready?
  }

  lemma StepKeepsNoCalls(c: Config, s: State, a: Action)
    requires NoCalls(s) && Enabled(c, s, a)
    ensures NoCalls(Perform(c, s, a))
  {
    var s' := Perform(c, s, a);
    forall t | s'.producersGone ensures s'.Producer(t).Ready? {
      assert s.Producer(t).Ready?;
    }
  }

  lemma {:induction false} NoCallsHolds(c: Config, states: seq<State>, actions: seq<Action>, i: nat)
    requires Execution(c, states, actions) && i < |states|
    ensures NoCalls(states[i])
  {
    if i > 0 {
      NoCallsHolds(c, states, actions, i - 1);
      StepKeepsNoCalls(c, states[i - 1], actions[i - 1]);
    }
  }

  /** The worker has found the senders gone and leaves. */
  predicate LeavesAlone(pc: WorkerPc) {
    pc == Flushing(Disconnected) || pc == Awaiting(Disconnected)
  }

  lemma EmptiedBySenders(c: Config, s: State, a: Action)
    requires NoCalls(s) && Enabled(c, s, a) && LeavesAlone(Perform(c, s, a).worker)
    requires LeavesAlone(s.worker) ==> s.NoSenders() && s.chan.queue == []
    ensures Perform(c, s, a).NoSenders() && Perform(c, s, a).chan.queue == []
  {
  }

  lemma {:induction false} EmptiedSoFar(c: Config, states: seq<State>, actions: seq<Action>, i: nat)
    requires Execution(c, states, actions) && i < |states|
    ensures LeavesAlone(states[i].worker) ==> states[i].NoSenders() && states[i].chan.queue == []
  {
    if i > 0 && LeavesAlone(states[i].worker) {
      EmptiedSoFar(c, states, actions, i - 1);
      NoCallsHolds(c, states, actions, i - 1);
      EmptiedBySenders(c, states[i - 1], actions[i - 1]);
    }
  }

  /** A worker that leaves because all senders are gone has handed over every line that was accepted. */
  lemma SendersGoneMeansDrained(c: Config, states: seq<State>, actions: seq<Action>, i: nat)
    requires Execution(c, states, actions) && i < |states|
    requires states[i].worker == Flushing(Disconnected) || states[i].worker == Awaiting(Disconnected)
    ensures Drained(states[i])
  {
    EmptiedSoFar(c, states, actions, i);
    NoCallsHolds(c, states, actions, i);
    AcceptedLinesAreHandedOver(c, states, actions, i);
    assert Lines([]) == [];
  }

  // ----- When the guard meets the worker -----

  /** The worker took the shutdown message, but the flush that was to follow has failed. */
  ghost predicate MissedShutdown(s: State) {
    && s.guardPc.Meeting?
    && Shutdown in s.chan.received
    && s.worker != Flushing(ShutDown) && !s.worker.Awaiting?
  }

  lemma MissedStep(c: Config, s: State, a: Action)
    requires Inv(c, s) && Enabled(c, s, a) && (MissedShutdown(s) || s.guardPc == Dropped(false))
    ensures var s' := Perform(c, s, a); MissedShutdown(s') || s'.guardPc == Dropped(false)
  {
    if MissedShutdown(s) && a.Work? && s.chan.queue != [] {
      var k :| 0 <= k < |s.chan.received| && s.chan.received[k].Shutdown?;
      assert s.chan.accepted[k].Shutdown? && s.chan.accepted[|s.chan.received|] == s.chan.queue[0];
    }
  }

  /** Such a worker never meets the guard: the message is gone, and the guard's drop runs into its timeout. */
  lemma {:induction false} FailedFlushMissesTheGuard(c: Config, states: seq<State>, actions: seq<Action>, i: nat, j: nat)
    requires Execution(c, states, actions) && i <= j < |states| && MissedShutdown(states[i])
    ensures MissedShutdown(states[j]) || states[j].guardPc == Dropped(false)
  {
    if i < j {
      FailedFlushMissesTheGuard(c, states, actions, i, j - 1);
      InvHolds(c, states, actions, j - 1);
      MissedStep(c, states[j - 1], actions[j - 1]);
    }
  }

  /** It happens: the guard is dropped, the worker takes its message, and the flush fails. */
  lemma FlushCanFailAfterShutdown(c: Config) returns (states: seq<State>, actions: seq<Action>)
    requires c.capacity >= 1
    ensures Execution(c, states, actions) && MissedShutdown(states[|actions|])
  {
    actions := [DropGuard, SendShutdown, Work(true), Work(false)];
    var s0 := State(Channel([], [], []), Tally(0, 0, 0, 0), map[], false, Recv, Held, [], 0);
    var s1 := Perform(c, s0, DropGuard);
    var s2 := Perform(c, s1, SendShutdown);
    var s3 := Perform(c, s2, Work(true));
    var s4 := Perform(c, s3, Work(false));
    states := [s0, s1, s2, s3, s4];
    assert s2.chan.queue == [Shutdown] && s3.worker == Flushing(ShutDown);
    assert s4.chan.received[0] == Shutdown;
  }

  /** Some continuation lets guard and worker meet. */
  ghost predicate CanMeet(c: Config, s: State) {
    exists actions, s' :: Leads(c, s, actions, s') && s'.guardPc == Dropped(true)
  }

  lemma {:induction false} MissedForGood(c: Config, s: State, actions: seq<Action>, s': State)
    requires Inv(c, s) && Leads(c, s, actions, s') && (MissedShutdown(s) || s.guardPc == Dropped(false))
    ensures s'.guardPc != Dropped(true)
    decreases actions
  {
    if actions != [] {
      MissedStep(c, s, actions[0]);
      StepKeepsInv(c, s, actions[0]);
      MissedForGood(c, Perform(c, s, actions[0]), actions[1..], s');
    }
  }

  /** While the guard waits its message is in the channel's history and the worker has not left. */
  ghost predicate Waiting(s: State) {
    s.guardPc.Meeting? ==> Shutdown in s.chan.accepted && !s.worker.LastFlush? && !s.worker.Exited?
  }

  /** Nobody can leave without the guard. */
  ghost predicate NotAlone(s: State) {
    && Waiting(s)
    && (s.worker.LastFlush? || s.worker.Exited? ==> s.guardPc.Dropped?)
  }

  lemma NotAloneKept(c: Config, s: State, a: Action)
    requires NotAlone(s) && Enabled(c, s, a)
    ensures NotAlone(Perform(c, s, a))
  {
    var s' := Perform(c, s, a);
    if s.guardPc.Meeting? {
      var k :| 0 <= k < |s.chan.accepted| && s.chan.accepted[k] == Shutdown;
      assert k < |s'.chan.accepted| && s'.chan.accepted[k] == Shutdown;
    } else if a.SendShutdown? {
      assert s'.chan.accepted[|s.chan.accepted|] == Shutdown;
    }
  }

  lemma {:induction false} NotAloneHolds(c: Config, states: seq<State>, actions: seq<Action>, i: nat)
    requires Execution(c, states, actions) && i < |states|
    ensures NotAlone(states[i])
  {
    if i > 0 {
      NotAloneHolds(c, states, actions, i - 1);
      NotAloneKept(c, states[i - 1], actions[i - 1]);
    }
  }

  /** How far the worker is from its next receive. */
  function Phase(pc: WorkerPc): nat {
    if pc.Awaiting? then 0 else if pc.Recv? || pc.TryRecv? then 1 else 2
  }

  lemma MeetsAfter(c: Config, s: State, a: Action)
    requires Enabled(c, s, a) && CanMeet(c, Perform(c, s, a))
    ensures CanMeet(c, s)
  {
    var actions, s' :| Leads(c, Perform(c, s, a), actions, s') && s'.guardPc == Dropped(true);
    assert ([a] + actions)[1..] == actions;
    assert Leads(c, s, [a] + actions, s');
  }

  /** A worker that has not missed the message comes to meet the guard if its writes and flushes succeed. */
  lemma {:induction false} WorkerComesToMeet(c: Config, s: State)
    requires Inv(c, s) && NotAlone(s) && s.guardPc.Meeting? && !MissedShutdown(s)
    ensures CanMeet(c, s)
    decreases |s.chan.queue|, Phase(s.worker)
  {
    if s.worker.Awaiting? {
      var s' := Perform(c, s, Meet);
      assert Leads(c, s', [], s');
      MeetsAfter(c, s, Meet);
    } else {
      WorkerComesCloser(c, s);
      StepKeepsInv(c, s, Work(true));
      NotAloneKept(c, s, Work(true));
      WorkerComesToMeet(c, Perform(c, s, Work(true)));
      MeetsAfter(c, s, Work(true));
    }
  }

  lemma WorkerComesCloser(c: Config, s: State)
    requires Inv(c, s) && NotAlone(s) && s.guardPc.Meeting? && !MissedShutdown(s) && !s.worker.Awaiting?
    ensures Enabled(c, s, Work(true))
    ensures
      var s' := Perform(c, s, Work(true));
      && s'.guardPc.Meeting? && !MissedShutdown(s')
      && (|s'.chan.queue| < |s.chan.queue| || (s'.chan.queue == s.chan.queue && Phase(s'.worker) < Phase(s.worker)))
  {
    if s.worker != Flushing(ShutDown) {
      StillQueued(s);
    }
  }

  /** A shutdown message that was not received is still queued. */
  lemma StillQueued(s: State)
    requires s.chan.accepted == s.chan.received + s.chan.queue
    requires Shutdown in s.chan.accepted && Shutdown !in s.chan.received
    ensures Shutdown in s.chan.queue
  {
  }

  /**
   * While the guard waits for the worker, the two can still meet exactly if the worker has not
   * missed the shutdown message.
   */
  lemma GuardCanMeetIff(c: Config, states: seq<State>, actions: seq<Action>, i: nat)
    requires Execution(c, states, actions) && i < |states| && states[i].guardPc.Meeting?
    ensures CanMeet(c, states[i]) <==> !MissedShutdown(states[i])
  {
    var s := states[i];
    InvHolds(c, states, actions, i);
    NotAloneHolds(c, states, actions, i);
    if MissedShutdown(s) {
      forall more, s' | Leads(c, s, more, s') ensures s'.guardPc != Dropped(true) {
        MissedForGood(c, s, more, s');
      }
    } else {
      WorkerComesToMeet(c, s);
    }
  }

  /** So the flush that follows the shutdown message decides: guard and worker can meet after it exactly if it succeeds. */
  lemma FlushDecides(c: Config, states: seq<State>, actions: seq<Action>, i: nat)
    requires Execution(c, states, actions) && i < |actions|
    requires states[i].guardPc.Meeting? && states[i].worker == Flushing(ShutDown) && actions[i].Work?
    ensures CanMeet(c, states[i + 1]) <==> actions[i].ok
  {
    InvHolds(c, states, actions, i);
    GuardCanMeetIff(c, states, actions, i + 1);
    assert states[i].chan.received[|states[i].chan.received| - 1] == Shutdown;
  }
}

/**
 * The worker's loops as they stand in tracing-appender/src/worker.rs. What the channel gives, and
 * how the writer answers, are inputs; the transition system above interleaves the same handling of
 * messages with the other threads.
 */
module WorkerLoop {
  import opened NonBlocking

  /** The first result that ends a round of `work`: not a line, or a line that cannot be written. */
  function StopAt(inbox: seq<Received>, oks: seq<bool>): (n: nat)
    requires |oks| == |inbox|
    ensures n <= |inbox|
    ensures forall i :: 0 <= i < n ==> Handle(inbox[i], oks[i]) == Done(Continue)
    ensures n < |inbox| ==> Handle(inbox[n], oks[n]) != Done(Continue)
  {
    if inbox == [] || Handle(inbox[0], oks[0]) != Done(Continue) then 0
    else
      var n := 1 + StopAt(inbox[1..], oks[1..]);
      assert forall i :: 0 < i < |inbox| ==> inbox[i] == inbox[1..][i - 1] && oks[i] == oks[1..][i - 1];
      n
  }

  /** The calls of `write_all` for the lines among the given results. */
  function Writes(inbox: seq<Received>, oks: seq<bool>): seq<Act>
    requires |oks| == |inbox|
  {
    if inbox == [] then []
    else
      var k := |inbox| - 1;
      Writes(inbox[..k], oks[..k]) + Call(inbox[k], oks[k])
  }

  function Call(r: Received, ok: bool): seq<Act> {
    if r.Got? && r.msg.Text? then [WriteAll(r.msg.line, ok)] else []
  }

  class Worker {
    var log: seq<Act>

    /** `handle_recv` and `handle_try_recv` */
    method HandleResult(r: Received, ok: bool) returns (out: Outcome)
      modifies this
      ensures out == Handle(r, ok) && log == old(log) + Call(r, ok)
    {
      match r
      case Got(Text(line)) =>
        log := log + [WriteAll(line, ok)];
        out := if ok then Done(Continue) else IoError;
      case Got(Shutdown) => out := Done(ShutDown);
      case NothingYet => out := Done(Empty);
      case SendersGone => out := Done(Disconnected);
    }

    /** `work`: `inbox` is what `recv` and then each `try_recv` return, `oks` the answers of `write_all`. */
    method Work(inbox: seq<Received>, oks: seq<bool>, flushOk: bool) returns (out: Outcome, used: nat)
      requires |oks| == |inbox| && StopAt(inbox, oks) < |inbox|
      modifies this
      ensures used == StopAt(inbox, oks) + 1
      ensures
        var (written, result) := Round(inbox[..used], oks[..used], flushOk);
        log == old(log) + written && out == result
    {
      ghost var stop, written := StopAt(inbox, oks), Call(inbox[0], oks[0]);
      out := HandleResult(inbox[0], oks[0]);
      used := 1;
      WritesGrow(inbox, oks, 0);
      while out == Done(Continue)
        invariant 1 <= used <= stop + 1
        invariant out == Handle(inbox[used - 1], oks[used - 1])
        invariant out == Done(Continue) <==> used <= stop
        invariant written == Writes(inbox[..used], oks[..used])
        invariant log == old(log) + written
        decreases |inbox| - used
      {
        WritesGrow(inbox, oks, used);
        out := HandleResult(inbox[used], oks[used]);
        written := written + Call(inbox[used], oks[used]);
        used := used + 1;
      }
      RoundEnds(inbox, oks, used, flushOk, old(log));
      if out.IoError? {
        return;
      }
      log := log + [Flush(flushOk)];
      if !flushOk {
        out := IoError;
      }
    }
  }

  lemma WritesGrow(inbox: seq<Received>, oks: seq<bool>, n: nat)
    requires |oks| == |inbox| && n < |inbox|
    ensures Writes(inbox[..n + 1], oks[..n + 1]) == Writes(inbox[..n], oks[..n]) + Call(inbox[n], oks[n])
  {
    assert inbox[..n + 1][..n] == inbox[..n] && oks[..n + 1][..n] == oks[..n];
  }

  lemma RoundEnds(inbox: seq<Received>, oks: seq<bool>, n: nat, flushOk: bool, before: seq<Act>)
    requires |oks| == |inbox| && 0 < n <= |inbox|
    ensures
      var last, writes := Handle(inbox[n - 1], oks[n - 1]), before + Writes(inbox[..n], oks[..n]);
      var (written, out) := Round(inbox[..n], oks[..n], flushOk);
      && before + written == (if last.IoError? then writes else writes + [Flush(flushOk)])
      && out == (if last.IoError? || !flushOk then IoError else last)
  {
  }

  // ----- Every round of the system's worker is a run of `work` -----

  /** What `work` appends to the log and returns, given all the results that it receives. */
  function Round(inbox: seq<Received>, oks: seq<bool>, flushOk: bool): (seq<Act>, Outcome)
    requires |oks| == |inbox| > 0
  {
    var last := Handle(inbox[|inbox| - 1], oks[|oks| - 1]);
    if last.IoError? then (Writes(inbox, oks), IoError)
    else (Writes(inbox, oks) + [Flush(flushOk)], if flushOk then last else IoError)
  }

  /** The messages among the results. */
  function Messages(inbox: seq<Received>): seq<Msg> {
    if inbox == [] then []
    else
      var last := inbox[|inbox| - 1];
      Messages(inbox[..|inbox| - 1]) + if last.Got? then [last.msg] else []
  }

  /** The worker of the system is inside a round, begun in state `s0`, in which it has so far
      received `inbox` and got the answers `oks`; the line it is writing has no answer yet. */
  ghost predicate InRound(s0: State, s: State, inbox: seq<Received>, oks: seq<bool>) {
    var held: seq<Msg> := if s.worker.Writing? then [Text(s.worker.line)] else [];
    && |oks| == |inbox|
    && s.log == s0.log + Writes(inbox, oks)
    && s.chan.received == s0.chan.received + (Messages(inbox) + held)
    && match s.worker
       case Writing(_) => StopAt(inbox, oks) == |inbox|
       case TryRecv => StopAt(inbox, oks) == |inbox|
       case Flushing(st) => StopAt(inbox, oks) == |inbox| - 1 && Handle(inbox[|inbox| - 1], oks[|inbox| - 1]) == Done(st)
       case _ => false
  }

  predicate BetweenRounds(pc: WorkerPc) {
    pc.Recv? || pc.Awaiting? || pc.LastFlush? || pc.Exited?
  }

  lemma OneMoreResult(inbox: seq<Received>, oks: seq<bool>, r: Received, ok: bool)
    requires |oks| == |inbox| == StopAt(inbox, oks)
    ensures Writes(inbox + [r], oks + [ok]) == Writes(inbox, oks) + Call(r, ok)
    ensures Messages(inbox + [r]) == Messages(inbox) + if r.Got? then [r.msg] else []
    ensures StopAt(inbox + [r], oks + [ok]) == |inbox| + if Handle(r, ok) == Done(Continue) then 1 else 0
  {
    assert (inbox + [r])[..|inbox|] == inbox && (oks + [ok])[..|oks|] == oks;
    assert forall k :: 0 <= k < |inbox| ==> (inbox + [r])[k] == inbox[k] && (oks + [ok])[k] == oks[k];
  }

  /** What the worker does with a result at once: a line is taken in hand, anything else ends the round. */
  lemma ReceiveInRound(s0: State, s: State, s': State, inbox: seq<Received>, oks: seq<bool>)
    returns (inbox': seq<Received>, oks': seq<bool>)
    requires |oks| == |inbox| == StopAt(inbox, oks) && s.log == s0.log + Writes(inbox, oks)
    requires s.chan.received == s0.chan.received + Messages(inbox)
    requires s'.log == s.log && s'.chan == Take(s.chan) && s'.worker == Receiving(Incoming(s))
    ensures InRound(s0, s', inbox', oks')
  {
    var r := Incoming(s);
    var taken := if r.Got? then [r.msg] else [];
    assert s'.chan.received == s0.chan.received + (Messages(inbox) + taken);
    if s'.worker.Writing? {
      inbox', oks' := inbox, oks;
    } else {
      OneMoreResult(inbox, oks, r, true);
      inbox', oks' := inbox + [r], oks + [true];
      NothingAdded(Writes(inbox, oks));
      NothingAdded(Messages(inbox'));
    }
  }

  lemma NothingAdded<T>(xs: seq<T>)
    ensures xs + [] == xs
  {
  }

  lemma WrittenInRound(s0: State, s: State, inbox: seq<Received>, oks: seq<bool>, ok: bool)
    requires InRound(s0, s, inbox, oks) && s.worker.Writing?
    ensures
      var r := Got(Text(s.worker.line));
      var inbox', oks' := inbox + [r], oks + [ok];
      && s.log + [WriteAll(s.worker.line, ok)] == s0.log + Writes(inbox', oks')
      && s.chan.received == s0.chan.received + Messages(inbox')
      && StopAt(inbox', oks') == |inbox| + if ok then 1 else 0
  {
    OneMoreResult(inbox, oks, Got(Text(s.worker.line)), ok);
  }

  /** One more step of the worker inside its round. */
  lemma StepInRound(s0: State, s: State, ok: bool, inbox: seq<Received>, oks: seq<bool>)
    returns (inbox': seq<Received>, oks': seq<bool>)
    requires InRound(s0, s, inbox, oks) && !BetweenRounds(WorkerStep(s, ok).worker)
    ensures InRound(s0, WorkerStep(s, ok), inbox', oks')
  {
    if s.worker.TryRecv? {
      NothingAdded(Messages(inbox));
      inbox', oks' := ReceiveInRound(s0, s, WorkerStep(s, ok), inbox, oks);
    } else {
      assert s.worker.Writing?;
      WrittenInRound(s0, s, inbox, oks, ok);
      inbox', oks' := inbox + [Got(Text(s.worker.line))], oks + [ok];
      NothingAdded(Messages(inbox'));
    }
  }

  /** The step that ends the round. */
  lemma LastInRound(s0: State, s: State, ok: bool, inbox: seq<Received>, oks: seq<bool>)
    returns (inbox': seq<Received>, oks': seq<bool>)
    requires InRound(s0, s, inbox, oks) && BetweenRounds(WorkerStep(s, ok).worker)
    ensures |oks'| == |inbox'| == StopAt(inbox', oks') + 1
    ensures IsRound(s0, WorkerStep(s, ok), inbox', oks', ok)
  {
    if s.worker.Writing? {
      WrittenInRound(s0, s, inbox, oks, ok);
      inbox', oks' := inbox + [Got(Text(s.worker.line))], oks + [ok];
    } else {
      inbox', oks' := inbox, oks;
      NothingAdded(Messages(inbox));
      assert s.log + [Flush(ok)] == s0.log + (Writes(inbox, oks) + [Flush(ok)]);
    }
  }

  /** From one state to the other the worker did what `work` does. */
  ghost predicate IsRound(s0: State, s: State, inbox: seq<Received>, oks: seq<bool>, flushOk: bool)
    requires |oks| == |inbox| > 0
  {
    var (written, out) := Round(inbox, oks, flushOk);
    && s.log == s0.log + written
    && s.chan.received == s0.chan.received + Messages(inbox)
    && (if out == Done(ShutDown) || out == Done(Disconnected) then s.worker == Awaiting(out.state)
        else s.worker == Recv)
  }

  /** The other threads leave the worker's business alone while it is in a round. */
  lemma OthersInRound(c: Config, s: State, a: Action)
    requires Enabled(c, s, a) && !s.worker.Awaiting?
    ensures
      var s' := Perform(c, s, a);
      if a.Work? then s' == WorkerStep(s, a.ok)
      else s'.worker == s.worker && s'.log == s.log && s'.chan.received == s.chan.received
  {
  }

  lemma SameInRound(s0: State, s: State, s': State, inbox: seq<Received>, oks: seq<bool>)
    requires InRound(s0, s, inbox, oks)
    requires s'.worker == s.worker && s'.log == s.log && s'.chan.received == s.chan.received
    ensures InRound(s0, s', inbox, oks)
  {
  }

  lemma FirstInRound(s: State, ok: bool)
    returns (inbox: seq<Received>, oks: seq<bool>)
    requires s.worker.Recv?
    ensures InRound(s, WorkerStep(s, ok), inbox, oks)
  {
    NothingAdded(s.log);
    NothingAdded(s.chan.received);
    inbox, oks := ReceiveInRound(s, s, WorkerStep(s, ok), [], []);
  }

  /** From the beginning of a round on, until it ends, there are results and answers that explain it. */
  lemma {:induction false} RoundSoFar(c: Config, states: seq<State>, actions: seq<Action>, i: nat, j: nat)
    returns (inbox: seq<Received>, oks: seq<bool>)
    requires Execution(c, states, actions) && i < j < |states|
    requires states[i].worker.Recv?
    requires forall k :: i < k <= j ==> !BetweenRounds(states[k].worker)
    ensures InRound(states[i], states[j], inbox, oks)
  {
    var s, s', a := states[j - 1], states[j], actions[j - 1];
    assert !BetweenRounds(s'.worker);
    assert i < j - 1 ==> !BetweenRounds(s.worker);
    OthersInRound(c, s, a);
    if j == i + 1 {
      inbox, oks := FirstInRound(s, a.ok);
    } else {
      inbox, oks := RoundSoFar(c, states, actions, i, j - 1);
      if a.Work? {
        inbox, oks := StepInRound(states[i], s, a.ok, inbox, oks);
      } else {
        SameInRound(states[i], s, s', inbox, oks);
      }
    }
  }

  /**
   * However the other threads interleave, a round of the worker, from leaving `Recv` until it is
   * between rounds again, is a run of `work` on some results and answers: it writes and flushes what
   * `work` does and takes what `work` takes from the channel, and it waits for the guard exactly when
   * `work` returns that the appender is shut down or disconnected.
   */
  lemma RoundIsWork(c: Config, states: seq<State>, actions: seq<Action>, i: nat, j: nat)
    returns (inbox: seq<Received>, oks: seq<bool>, flushOk: bool)
    requires Execution(c, states, actions) && i + 1 < j < |states|
    requires states[i].worker.Recv? && BetweenRounds(states[j].worker)
    requires forall k :: i < k < j ==> !BetweenRounds(states[k].worker)
    ensures |oks| == |inbox| == StopAt(inbox, oks) + 1
    ensures IsRound(states[i], states[j], inbox, oks, flushOk)
  {
    inbox, oks := RoundSoFar(c, states, actions, i, j - 1);
    var s, a := states[j - 1], actions[j - 1];
    OthersInRound(c, s, a);
    flushOk := a.ok;
    inbox, oks := LastInRound(states[i], s, a.ok, inbox, oks);
  }
}
