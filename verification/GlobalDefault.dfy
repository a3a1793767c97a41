/**
 * The one-shot global default dispatcher (tracing-core/src/dispatcher.rs): `set_global_default`
 * and `get_global` called by any number of threads, one atomic operation per step.
 */
module GlobalDefault {
  import opened Options

  type Thread = nat
  type Dispatch = nat

  datatype Phase = Uninitialized | Initializing | Initialized

  datatype Pc =
    | Idle
    | SetCas(d: Dispatch)     // about to compare-exchange GLOBAL_INIT
    | SetWrite(d: Dispatch)   // won it; about to write GLOBAL_DISPATCH
    | SetInit(d: Dispatch)    // about to store INITIALIZED
    | SetExists(d: Dispatch)  // about to store EXISTS
    | GetLoad                 // about to load GLOBAL_INIT
    | GetRead                 // saw INITIALIZED; about to read GLOBAL_DISPATCH

  /** `global` is `None` for the initial `NONE`. As history: the writes of `GLOBAL_DISPATCH`, the
      dispatchers of the calls that returned `Ok`, and what `get_global` returned, in order. */
  datatype State = State(phase: Phase, global: Option<Dispatch>, exists_: bool, threads: map<Thread, Pc>,
                         writes: seq<Dispatch>, oks: seq<Dispatch>, got: seq<Option<Dispatch>>) {
    function Pc(t: Thread): Pc {
      if t in threads then threads[t] else Idle
    }

    function Goto(t: Thread, pc: Pc): State {
      this.(threads := threads[t := pc])
    }
  }

  ghost predicate Init(s: State) {
    s == State(Uninitialized, None, false, map[], [], [], [])
  }

  datatype Action = BeginSet(t: Thread, d: Dispatch) | BeginGet(t: Thread) | Step(t: Thread)

  ghost predicate Enabled(s: State, a: Action) {
    if a.Step? then !s.Pc(a.t).Idle? else s.Pc(a.t).Idle?
  }

  function Perform(s: State, a: Action): State {
    match a
    case BeginSet(t, d) => s.Goto(t, SetCas(d))
    case BeginGet(t) => s.Goto(t, GetLoad)
    case Step(t) =>
      match s.Pc(t)
      case Idle => s
      case SetCas(d) =>
        if s.phase.Uninitialized? then s.(phase := Initializing).Goto(t, SetWrite(d))
        else s.Goto(t, Idle)  // Err
      case SetWrite(d) => s.(global := Some(d), writes := s.writes + [d]).Goto(t, SetInit(d))
      case SetInit(d) => s.(phase := Initialized).Goto(t, SetExists(d))
      case SetExists(d) => s.(exists_ := true, oks := s.oks + [d]).Goto(t, Idle)  // Ok
      case GetLoad =>
        if s.phase.Initialized? then s.Goto(t, GetRead)
        else s.(got := s.got + [None]).Goto(t, Idle)
      case GetRead => s.(got := s.got + [s.global]).Goto(t, Idle)
  }

  ghost predicate Execution(states: seq<State>, actions: seq<Action>) {
    && |states| == |actions| + 1
    && Init(states[0])
    && forall i :: 0 <= i < |actions| ==> Enabled(states[i], actions[i]) && states[i + 1] == Perform(states[i], actions[i])
  }

  /** Past the compare-exchange. */
  predicate Won(pc: Pc) {
    pc.SetWrite? || pc.SetInit? || pc.SetExists?
  }

  ghost predicate ThreadOk(s: State, t: Thread) {
    match s.Pc(t)
    case SetWrite(d) => s.phase.Initializing? && s.writes == [] && s.oks == []
    case SetInit(d) => s.phase.Initializing? && s.writes == [d] && s.oks == []
    case SetExists(d) => s.phase.Initialized? && s.writes == [d] && s.oks == []
    case GetRead => s.phase.Initialized?
    case _ => true
  }

  ghost predicate Inv(s: State) {
    && (forall t :: ThreadOk(s, t))
    && OneWinner(s)
    && (s.phase.Uninitialized? ==> s.writes == [] && s.oks == [])
    && (s.phase.Initialized? ==> |s.writes| == 1)
    && |s.writes| <= 1
    && s.global == (if s.writes == [] then None else Some(s.writes[0]))
    && (s.oks == [] || (s.oks == s.writes && s.phase.Initialized?))
    && (s.exists_ <==> s.oks != [])
    && (forall i :: 0 <= i < |s.got| && s.got[i].Some? ==> s.phase.Initialized? && s.got[i] == s.global)
    && (forall i, j :: 0 <= i < j < |s.got| && s.got[i].Some? ==> s.got[j] == s.got[i])
  }

  /** Only the thread that won can be past the compare-exchange, and nobody before it. */
  ghost predicate OneWinner(s: State) {
    && (forall t, u :: Won(s.Pc(t)) && Won(s.Pc(u)) ==> t == u)
    && (s.phase.Uninitialized? || s.oks != [] ==> forall t :: !Won(s.Pc(t)))
  }

  lemma OneWinnerKept(s: State, a: Action)
    requires Inv(s) && Enabled(s, a)
    ensures OneWinner(Perform(s, a))
  {
    var s', t := Perform(s, a), a.t;
    assert ThreadOk(s, t);
    assert forall u :: u != t ==> s'.Pc(u) == s.Pc(u);
  }

  lemma ThreadsKept(s: State, a: Action, u: Thread)
    requires Inv(s) && Enabled(s, a)
    ensures ThreadOk(Perform(s, a), u)
  {
    assert ThreadOk(s, a.t) && ThreadOk(s, u);
  }

  lemma StepKeepsInv(s: State, a: Action)
    requires Inv(s) && Enabled(s, a)
    ensures Inv(Perform(s, a))
  {
    assert ThreadOk(s, a.t);
    OneWinnerKept(s, a);
    forall u ensures ThreadOk(Perform(s, a), u) {
      ThreadsKept(s, a, u);
    }
  }

  lemma {:induction false} InvHolds(states: seq<State>, actions: seq<Action>, i: nat)
    requires Execution(states, actions) && i < |states|
    ensures Inv(states[i])
  {
    if i > 0 {
      InvHolds(states, actions, i - 1);
      StepKeepsInv(states[i - 1], actions[i - 1]);
    }
  }

  /**
   * Of all racing calls at most one returns `Ok`; `GLOBAL_DISPATCH` is written at most once, by that
   * call, and never read before; every `get_global` returns the winner or nothing, and once one has
   * returned the winner all later ones do.
   */
  lemma GlobalDefaultIsOneShot(states: seq<State>, actions: seq<Action>, i: nat)
    requires Execution(states, actions) && i < |states|
    ensures
      var s := states[i];
      && |s.writes| <= 1 && s.oks <= s.writes
      && (forall t :: s.Pc(t).GetRead? ==> |s.writes| == 1 && s.global == Some(s.writes[0]))
      && (forall k :: 0 <= k < |s.got| && s.got[k].Some? ==> |s.writes| == 1 && s.got[k] == Some(s.writes[0]))
      && (forall j, k :: 0 <= j < k < |s.got| && s.got[j].Some? ==> s.got[k] == s.got[j])
      && (s.oks != [] ==> s.phase.Initialized?)
  {
    InvHolds(states, actions, i);
    var s := states[i];
    forall t | s.Pc(t).GetRead? ensures |s.writes| == 1 && s.global == Some(s.writes[0]) {
      assert ThreadOk(s, t);
    }
  }

  /** The write is never undone: once set, the global default stays. */
  lemma {:induction false} GlobalStays(states: seq<State>, actions: seq<Action>, i: nat, j: nat)
    requires Execution(states, actions) && i <= j < |states|
    ensures states[i].writes <= states[j].writes
    ensures states[i].global.Some? ==> states[j].global == states[i].global
    ensures states[i].phase.Initialized? ==> states[j].phase.Initialized?
  {
    if i < j {
      GlobalStays(states, actions, i, j - 1);
      InvHolds(states, actions, j - 1);
      assert ThreadOk(states[j - 1], actions[j - 1].t);
    }
  }

  // ----- What one call does -----

  lemma {:induction false} OthersLeaveTheCall(states: seq<State>, actions: seq<Action>, i: nat, j: nat, t: Thread)
    requires Execution(states, actions) && i <= j < |states|
    requires forall k :: i <= k < j ==> actions[k].t != t
    ensures states[j].Pc(t) == states[i].Pc(t)
  {
    if i < j {
      OthersLeaveTheCall(states, actions, i, j - 1, t);
    }
  }

  /** A `get_global` whose load finds the initialisation complete returns the winner, any other returns nothing. */
  lemma GetReturnsTheWinnerIff(states: seq<State>, actions: seq<Action>, i: nat, j: nat, t: Thread)
    requires Execution(states, actions) && i < j < |actions|
    requires actions[i] == Step(t) && states[i].Pc(t) == GetLoad
    requires actions[j] == Step(t) && forall k :: i < k < j ==> actions[k].t != t
    ensures states[i].phase.Initialized? ==>
      |states[j].writes| == 1 && states[j + 1].got == states[j].got + [Some(states[j].writes[0])] && states[j + 1].Pc(t) == Idle
  {
    if states[i].phase.Initialized? {
      OthersLeaveTheCall(states, actions, i + 1, j, t);
      GlobalDefaultIsOneShot(states, actions, j);
    }
  }

  lemma GetReturnsNothingBefore(states: seq<State>, actions: seq<Action>, i: nat, t: Thread)
    requires Execution(states, actions) && i < |actions|
    requires actions[i] == Step(t) && states[i].Pc(t) == GetLoad && !states[i].phase.Initialized?
    ensures states[i + 1].got == states[i].got + [None] && states[i + 1].Pc(t) == Idle
  {
  }

  /** A call wins, with the dispatcher it was given, exactly if it is the first to try; otherwise it ends with `Err`. */
  lemma FirstCallWins(states: seq<State>, actions: seq<Action>, i: nat, j: nat, t: Thread, d: Dispatch)
    requires Execution(states, actions) && i < j < |actions|
    requires actions[i] == BeginSet(t, d) && actions[j] == Step(t) && forall k :: i < k < j ==> actions[k].t != t
    ensures if states[j].phase.Uninitialized? then states[j + 1].Pc(t) == SetWrite(d) && states[j + 1].phase.Initializing?
            else states[j + 1].Pc(t) == Idle && states[j + 1].oks == states[j].oks && states[j + 1].writes == states[j].writes
  {
    OthersLeaveTheCall(states, actions, i + 1, j, t);
  }

  /** The winner writes its dispatcher, publishes it, and returns `Ok`. */
  lemma WinnerSucceeds(states: seq<State>, actions: seq<Action>, i: nat, t: Thread)
    requires Execution(states, actions) && i < |actions| && actions[i] == Step(t)
    ensures
      var pc, s' := states[i].Pc(t), states[i + 1];
      && (pc.SetWrite? ==> s'.writes == [pc.d] && s'.global == Some(pc.d) && s'.Pc(t) == SetInit(pc.d))
      && (pc.SetInit? ==> s'.phase.Initialized? && s'.Pc(t) == SetExists(pc.d))
      && (pc.SetExists? ==> s'.oks == s'.writes == [pc.d] && s'.exists_ && s'.Pc(t) == Idle)
  {
    InvHolds(states, actions, i);
    assert ThreadOk(states[i], t);
  }

  /** Once someone has tried, the winner has returned `Ok` or is still on its way. */
  lemma {:induction false} SomeoneWins(states: seq<State>, actions: seq<Action>, i: nat)
    requires Execution(states, actions) && i < |states| && !states[i].phase.Uninitialized?
    ensures |states[i].oks| == 1 || exists t :: Won(states[i].Pc(t))
  {
    var s, s', a := states[i - 1], states[i], actions[i - 1];
    InvHolds(states, actions, i);
    if s.phase.Uninitialized? {
      assert Won(s'.Pc(a.t));
    } else {
      SomeoneWins(states, actions, i - 1);
      if |s.oks| != 1 {
        var t :| Won(s.Pc(t));
        assert Won(s'.Pc(t)) || |s'.oks| == |s.oks| + 1;
      }
    }
  }
}
