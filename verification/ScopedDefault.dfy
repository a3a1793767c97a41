/**
 * Scoped default dispatchers (tracing-core/src/dispatcher.rs): `set_default` and its guard,
 * `get_default` and `get_current`, by any number of threads. One step is one access to
 * `SCOPED_COUNT` or to the global default, together with the thread-local work next to it.
 * Guards and closures of a thread end in the reverse of the order they began in, and
 * `set_default` is not called while the thread's default is borrowed.
 */
module ScopedDefault {
  import opened Options

  type Thread = nat
  /** A dispatcher other than `NONE`, even if it was made by `Dispatch::none`. */
  type Dispatch = nat

  datatype Kind = Default | Current

  /** What is open on a thread, oldest first. `saw` is what a closure was given, `None` for `NONE`. */
  datatype Frame =
    | Guard(prior: Option<Dispatch>, installed: Dispatch)
    | Entered(saw: Option<Dispatch>)  // closure run while holding `Entered`
    | Shut                            // closure run with `NONE` because `enter` failed
    | Fast(saw: Option<Dispatch>)     // closure run on the fast path

  datatype Pc =
    | Running
    | SetCount            // default replaced; about to increment SCOPED_COUNT
    | DropCount           // default restored; about to decrement SCOPED_COUNT
    | FastGet(kind: Kind) // read a zero count; about to call get_global
    | SlowGet(kind: Kind) // read a positive count; about to enter

  /** `default` and `canEnter` are the fields of `CURRENT_STATE`; `frames` is history. */
  datatype Local = Local(default: Option<Dispatch>, canEnter: bool, frames: seq<Frame>, pc: Pc)

  datatype State = State(count: int, global: Option<Dispatch>, threads: map<Thread, Local>) {
    function At(t: Thread): Local {
      if t in threads then threads[t] else Local(None, true, [], Running)
    }

    function Put(t: Thread, l: Local): State {
      this.(threads := threads[t := l])
    }
  }

  ghost predicate Init(s: State) {
    s == State(0, None, map[])
  }

  datatype Action =
    | SetGlobal(t: Thread, d: Dispatch)
    | SetDefault(t: Thread, d: Dispatch)
    | DropGuard(t: Thread)
    | Get(t: Thread, kind: Kind)
    | Return(t: Thread)
    | Step(t: Thread)

  /** The `RefCell` is borrowed exactly while an `Entered` closure runs. */
  predicate Enterable(frames: seq<Frame>) {
    frames == [] || (!Last(frames).Entered? && Enterable(Front(frames)))
  }

  ghost predicate Enabled(s: State, a: Action) {
    var l := s.At(a.t);
    match a
    case SetGlobal(_, _) => s.global.None?
    case SetDefault(_, _) => l.pc.Running? && Enterable(l.frames)
    case DropGuard(_) => l.pc.Running? && l.frames != [] && Last(l.frames).Guard?
    case Get(_, _) => l.pc.Running?
    case Return(_) => l.pc.Running? && l.frames != [] && !Last(l.frames).Guard?
    case Step(_) => !l.pc.Running?
  }

  /** `Entered::current`. */
  function Resolve(l: Local, global: Option<Dispatch>): Option<Dispatch> {
    if l.default.Some? then l.default else global
  }

  /** The `Step` of a thread, on its local state. */
  function Advance(l: Local, global: Option<Dispatch>): Local {
    match l.pc
    case FastGet(_) => l.(pc := Running, frames := l.frames + [Fast(global)])
    case SlowGet(kind) =>
      if l.canEnter then Local(l.default, false, l.frames + [Entered(Resolve(l, global))], Running)
      else if kind.Default? then l.(pc := Running, frames := l.frames + [Shut])
      else l.(pc := Running)  // get_current returns None
    case _ => l.(pc := Running)
  }

  function Perform(s: State, a: Action): State
    requires Enabled(s, a)
  {
    var l := s.At(a.t);
    match a
    case SetGlobal(_, d) => s.(global := Some(d))
    case SetDefault(t, d) => s.Put(t, Local(Some(d), true, l.frames + [Guard(l.default, d)], SetCount))
    case DropGuard(t) => s.Put(t, l.(default := Last(l.frames).prior, frames := Front(l.frames), pc := DropCount))
    case Get(t, kind) => s.Put(t, l.(pc := if s.count == 0 then FastGet(kind) else SlowGet(kind)))
    case Return(t) =>
      s.Put(t, l.(canEnter := l.canEnter || Last(l.frames).Entered?, frames := Front(l.frames)))
    case Step(t) =>
      var delta := if l.pc.SetCount? then 1 else if l.pc.DropCount? then -1 else 0;
      s.(count := s.count + delta).Put(t, Advance(l, s.global))
  }

  ghost predicate Execution(states: seq<State>, actions: seq<Action>) {
    && |states| == |actions| + 1
    && Init(states[0])
    && forall i :: 0 <= i < |actions| ==>
         Enabled(states[i], actions[i]) && states[i + 1] == Perform(states[i], actions[i])
  }

  function Last(frames: seq<Frame>): Frame
    requires frames != []
  {
    frames[|frames| - 1]
  }

  function Front(frames: seq<Frame>): seq<Frame>
    requires frames != []
  {
    frames[..|frames| - 1]
  }

  // ----- The invariant -----

  /** The dispatcher of the innermost live guard: what the thread's default should be. */
  function Innermost(frames: seq<Frame>): Option<Dispatch> {
    if frames == [] then None
    else if Last(frames).Guard? then Some(Last(frames).installed)
    else Innermost(Front(frames))
  }

  /** What a closure above `below` may see: the thread's default, or failing that the global one,
      which was perhaps not yet set when the closure began. */
  predicate Sees(global: Option<Dispatch>, below: seq<Frame>, saw: Option<Dispatch>) {
    if Innermost(below).Some? then saw == Innermost(below) else saw.None? || saw == global
  }

  predicate FrameOk(global: Option<Dispatch>, below: seq<Frame>, f: Frame) {
    match f
    case Guard(prior, _) => prior == Innermost(below) && Enterable(below)
    case Entered(saw) => Enterable(below) && Sees(global, below, saw)
    case Shut => !Enterable(below)
    case Fast(saw) => Innermost(below).None? && Sees(global, below, saw)
  }

  predicate Wellformed(global: Option<Dispatch>, frames: seq<Frame>) {
    frames == [] || (FrameOk(global, Front(frames), Last(frames)) && Wellformed(global, Front(frames)))
  }

  ghost predicate LocalOk(global: Option<Dispatch>, l: Local) {
    && Wellformed(global, l.frames)
    && l.default == Innermost(l.frames)
    && l.canEnter == Enterable(l.frames)
    && (l.pc.SetCount? ==> l.frames != [] && Last(l.frames).Guard?)
    && (l.pc.FastGet? ==> Innermost(l.frames).None?)
  }

  /** The guards that `SCOPED_COUNT` counts, by their position: those whose increment has happened
      and whose decrement has not. */
  predicate IsCounted(l: Local, k: nat) {
    if k < |l.frames| then l.frames[k].Guard? && !(l.pc.SetCount? && k == |l.frames| - 1)
    else k == |l.frames| && l.pc.DropCount?
  }

  ghost function Counted(s: State): set<(Thread, nat)> {
    set t <- s.threads, k | 0 <= k <= |s.threads[t].frames| && IsCounted(s.threads[t], k) :: (t, k)
  }

  /** The live guards of all threads, by their position. */
  ghost function Guards(s: State): set<(Thread, nat)> {
    set t <- s.threads, k | 0 <= k < |s.threads[t].frames| && s.threads[t].frames[k].Guard? :: (t, k)
  }

  ghost predicate Inv(s: State) {
    && (forall t :: LocalOk(s.global, s.At(t)))
    && s.count == |Counted(s)|
  }

  lemma Pushed(frames: seq<Frame>, f: Frame)
    ensures Last(frames + [f]) == f && Front(frames + [f]) == frames
  {
  }

  lemma {:induction false} GlobalWidens(frames: seq<Frame>, global: Option<Dispatch>)
    requires Wellformed(None, frames)
    ensures Wellformed(global, frames)
  {
    if frames != [] {
      GlobalWidens(Front(frames), global);
    }
  }

  /** A thread whose default comes from no guard has none. */
  lemma {:induction false} InnermostMeaning(frames: seq<Frame>)
    ensures Innermost(frames).None? <==> forall k :: 0 <= k < |frames| ==> !frames[k].Guard?
  {
    if frames != [] {
      InnermostMeaning(Front(frames));
      assert forall k :: 0 <= k < |frames| - 1 ==> frames[k] == Front(frames)[k];
    }
  }

  lemma CountedAt(s: State, t: Thread, k: nat)
    ensures (t, k) in Counted(s) <==> IsCounted(s.At(t), k)
  {
  }

  /** A zero count leaves no guard on a thread that is not in the middle of making or dropping one. */
  lemma ZeroCountMeansNoGuard(s: State, t: Thread)
    requires Inv(s) && s.count == 0 && s.At(t).pc.Running?
    ensures Innermost(s.At(t).frames).None?
  {
    var frames := s.At(t).frames;
    forall k | 0 <= k < |frames| ensures !frames[k].Guard? {
      CountedAt(s, t, k);
    }
    InnermostMeaning(frames);
  }

  lemma LocalStep(s: State, a: Action)
    requires Inv(s) && Enabled(s, a)
    ensures LocalOk(Perform(s, a).global, Perform(s, a).At(a.t))
  {
    var l := s.At(a.t);
    assert LocalOk(s.global, l);
    match a
    case SetGlobal(_, d) => GlobalWidens(l.frames, Some(d));
    case SetDefault(_, d) => PushedOk(s.global, l.frames, Guard(l.default, d));
    case Get(_, _) => if s.count == 0 { ZeroCountMeansNoGuard(s, a.t); }
    case Step(_) => AdvanceKeepsLocal(l, s.global);
    case _ =>
  }

  lemma AdvanceKeepsLocal(l: Local, global: Option<Dispatch>)
    requires LocalOk(global, l)
    ensures LocalOk(global, Advance(l, global))
  {
    match l.pc
    case FastGet(_) => PushedOk(global, l.frames, Fast(global));
    case SlowGet(_) => PushedOk(global, l.frames, if l.canEnter then Entered(Resolve(l, global)) else Shut);
    case _ =>
  }

  lemma PushedOk(global: Option<Dispatch>, frames: seq<Frame>, f: Frame)
    requires Wellformed(global, frames) && FrameOk(global, frames, f)
    ensures Wellformed(global, frames + [f])
    ensures Innermost(frames + [f]) == if f.Guard? then Some(f.installed) else Innermost(frames)
    ensures Enterable(frames + [f]) <==> !f.Entered? && Enterable(frames)
  {
    Pushed(frames, f);
  }

  /** How a step changes the position `k` of its thread's counted guards. */
  lemma CountedPositions(s: State, a: Action, k: nat)
    requires Inv(s) && Enabled(s, a)
    ensures
      var l, l' := s.At(a.t), Perform(s, a).At(a.t);
      if a.Step? && l.pc.SetCount? then
        IsCounted(l', k) <==> IsCounted(l, k) || k == |l.frames| - 1
      else if a.Step? && l.pc.DropCount? then
        IsCounted(l', k) <==> IsCounted(l, k) && k != |l.frames|
      else
        IsCounted(l', k) <==> IsCounted(l, k)
  {
    assert LocalOk(s.global, s.At(a.t));
  }

  lemma SameCounted(s: State, s': State, t: Thread)
    requires forall u :: u != t ==> s'.At(u) == s.At(u)
    requires forall k: nat :: IsCounted(s'.At(t), k) <==> IsCounted(s.At(t), k)
    ensures Counted(s') == Counted(s)
  {
    forall u: Thread, k: nat ensures (u, k) in Counted(s') <==> (u, k) in Counted(s) {
      CountedAt(s, u, k);
      CountedAt(s', u, k);
    }
  }

  lemma OneMoreCounted(s: State, s': State, t: Thread, n: nat)
    requires forall u :: u != t ==> s'.At(u) == s.At(u)
    requires forall k: nat :: IsCounted(s'.At(t), k) <==> IsCounted(s.At(t), k) || k == n
    requires !IsCounted(s.At(t), n)
    ensures |Counted(s')| == |Counted(s)| + 1
  {
    forall u: Thread, k: nat ensures (u, k) in Counted(s') <==> (u, k) in Counted(s) + {(t, n)} {
      CountedAt(s, u, k);
      CountedAt(s', u, k);
    }
    CountedAt(s, t, n);
    assert Counted(s') == Counted(s) + {(t, n)};
  }

  lemma CountStep(s: State, a: Action)
    requires Inv(s) && Enabled(s, a)
    ensures Perform(s, a).count == |Counted(Perform(s, a))|
  {
    var s', t := Perform(s, a), a.t;
    var l := s.At(t);
    assert LocalOk(s.global, l);
    forall k: nat { CountedPositions(s, a, k); }
    if a.Step? && l.pc.SetCount? {
      OneMoreCounted(s, s', t, |l.frames| - 1);
    } else if a.Step? && l.pc.DropCount? {
      OneMoreCounted(s', s, t, |l.frames|);
    } else {
      SameCounted(s, s', t);
    }
  }

  lemma StepKeepsInv(s: State, a: Action)
    requires Inv(s) && Enabled(s, a)
    ensures Inv(Perform(s, a))
  {
    LocalStep(s, a);
    CountStep(s, a);
    var s' := Perform(s, a);
    forall u | u != a.t ensures LocalOk(s'.global, s'.At(u)) {
      assert LocalOk(s.global, s.At(u));
      if a.SetGlobal? {
        GlobalWidens(s.At(u).frames, Some(a.d));
      }
    }
  }

  lemma {:induction false} InvHolds(states: seq<State>, actions: seq<Action>, i: nat)
    requires Execution(states, actions) && i < |states|
    ensures Inv(states[i])
  {
    if i == 0 {
      assert Counted(states[0]) == {};
    } else {
      InvHolds(states, actions, i - 1);
      StepKeepsInv(states[i - 1], actions[i - 1]);
    }
  }

  // ----- Every execution -----

  /** When no thread is between replacing its default and adjusting `SCOPED_COUNT`, the counter is
      the number of live guards; it never goes below zero. */
  lemma CountIsTheLiveGuards(states: seq<State>, actions: seq<Action>, i: nat)
    requires Execution(states, actions) && i < |states|
    ensures states[i].count >= 0
    ensures (forall t :: !states[i].At(t).pc.SetCount? && !states[i].At(t).pc.DropCount?)
            ==> states[i].count == |Guards(states[i])|
  {
    InvHolds(states, actions, i);
    var s := states[i];
    if forall t :: !s.At(t).pc.SetCount? && !s.At(t).pc.DropCount? {
      forall t: Thread, k: nat ensures (t, k) in Counted(s) <==> (t, k) in Guards(s) {
        CountedAt(s, t, k);
        assert !s.At(t).pc.SetCount? && !s.At(t).pc.DropCount?;
      }
      assert Counted(s) == Guards(s);
    }
  }

  /** A thread's default is always its innermost guard's dispatcher, and `can_enter` is false
      exactly while one of its closures holds `Entered`. */
  lemma DefaultIsTheInnermostGuard(states: seq<State>, actions: seq<Action>, i: nat, t: Thread)
    requires Execution(states, actions) && i < |states|
    ensures states[i].At(t).default == Innermost(states[i].At(t).frames)
    ensures states[i].At(t).canEnter <==> Enterable(states[i].At(t).frames)
    ensures Wellformed(states[i].global, states[i].At(t).frames)
  {
    InvHolds(states, actions, i);
    assert LocalOk(states[i].global, states[i].At(t));
  }

  /** What a call gives its closure in a step that ends in `after`, if it runs it at all. */
  function Offer(before: seq<Frame>, after: seq<Frame>): Option<Option<Dispatch>> {
    if |after| > |before| then Some(Given(Last(after))) else None
  }

  /** The fast path treats the closure as the slow path would have, exactly when the thread is not
      already inside a closure that holds `Entered`, or, for `get_default`, there is nothing to give. */
  lemma FastPathAgrees(states: seq<State>, actions: seq<Action>, i: nat, t: Thread)
    requires Execution(states, actions) && i < |states|
    requires states[i].At(t).pc.FastGet?
    ensures
      var l, global := states[i].At(t), states[i].global;
      var fast, slow := Advance(l, global), Advance(l.(pc := SlowGet(l.pc.kind)), global);
      Offer(l.frames, fast.frames) == Offer(l.frames, slow.frames)
      <==> Enterable(l.frames) || (l.pc.kind.Default? && global.None?)
  {
    InvHolds(states, actions, i);
    assert LocalOk(states[i].global, states[i].At(t));
  }

  /** The dispatcher a closure was given. */
  function Given(f: Frame): Option<Dispatch> {
    if f.Entered? || f.Fast? then f.saw else None
  }

  lemma {:induction false} WellformedAt(global: Option<Dispatch>, frames: seq<Frame>, k: nat)
    requires Wellformed(global, frames) && k < |frames|
    ensures FrameOk(global, frames[..k], frames[k])
  {
    if k < |frames| - 1 {
      WellformedAt(global, Front(frames), k);
      assert Front(frames)[..k] == frames[..k];
    }
  }

  /** Every closure that is not shut out sees the innermost dispatcher installed below it, and the
      global one (if set by then) when there is none. */
  lemma ClosuresSeeTheInnermost(states: seq<State>, actions: seq<Action>, i: nat, t: Thread, k: nat)
    requires Execution(states, actions) && i < |states|
    requires k < |states[i].At(t).frames|
    requires states[i].At(t).frames[k].Entered? || states[i].At(t).frames[k].Fast?
    ensures Sees(states[i].global, states[i].At(t).frames[..k], states[i].At(t).frames[k].saw)
  {
    DefaultIsTheInnermostGuard(states, actions, i, t);
    WellformedAt(states[i].global, states[i].At(t).frames, k);
  }

  lemma {:induction false} EnterableMeaning(frames: seq<Frame>)
    ensures Enterable(frames) <==> forall k :: 0 <= k < |frames| ==> !frames[k].Entered?
  {
    if frames != [] {
      EnterableMeaning(Front(frames));
      assert forall k :: 0 <= k < |frames| - 1 ==> frames[k] == Front(frames)[k];
    }
  }

  /** Without the fast path, of any two nested closures the inner one is shut out. */
  lemma NestedIsShut(global: Option<Dispatch>, frames: seq<Frame>, j: nat, k: nat)
    requires Wellformed(global, frames) && j < k < |frames|
    requires !frames[j].Guard? && !frames[k].Guard?
    requires forall m :: 0 <= m < |frames| ==> !frames[m].Fast?
    ensures frames[k].Shut?
  {
    WellformedAt(global, frames, j);
    WellformedAt(global, frames, k);
    EnterableMeaning(frames[..j]);
    EnterableMeaning(frames[..k]);
    if frames[j].Entered? {
      assert frames[..k][j].Entered?;
    } else {
      var m :| 0 <= m < j && frames[..j][m].Entered?;
      assert frames[..k][m].Entered?;
    }
  }

  /** While the count stays positive the thread takes no fast path. */
  lemma {:induction false} PositiveCountKeepsSlow(states: seq<State>, actions: seq<Action>, i: nat, j: nat, t: Thread)
    requires Execution(states, actions) && i <= j < |states|
    requires forall k :: i <= k <= j ==> states[k].count > 0
    requires !states[i].At(t).pc.FastGet? && forall m :: 0 <= m < |states[i].At(t).frames| ==> !states[i].At(t).frames[m].Fast?
    ensures !states[j].At(t).pc.FastGet? && forall m :: 0 <= m < |states[j].At(t).frames| ==> !states[j].At(t).frames[m].Fast?
  {
    if i < j {
      PositiveCountKeepsSlow(states, actions, i, j - 1, t);
    }
  }

  /**
   * While the scoped count stays positive, over any nesting of `get_default` and `get_current` on a
   * thread only the outermost closure sees a real dispatcher: every closure inside it is shut out.
   */
  lemma OnlyTheOutermostSees(states: seq<State>, actions: seq<Action>, i: nat, j: nat, t: Thread)
    requires Execution(states, actions) && i <= j < |states|
    requires forall k :: i <= k <= j ==> states[k].count > 0
    requires !states[i].At(t).pc.FastGet? && forall m :: 0 <= m < |states[i].At(t).frames| ==> !states[i].At(t).frames[m].Fast?
    ensures
      var frames := states[j].At(t).frames;
      forall m, n :: 0 <= m < n < |frames| && !frames[m].Guard? && !frames[n].Guard? ==> frames[n].Shut?
  {
    PositiveCountKeepsSlow(states, actions, i, j, t);
    DefaultIsTheInnermostGuard(states, actions, j, t);
    var frames := states[j].At(t).frames;
    forall m, n | 0 <= m < n < |frames| && !frames[m].Guard? && !frames[n].Guard? ensures frames[n].Shut? {
      NestedIsShut(states[j].global, frames, m, n);
    }
  }

  /** A thread's own guard is enough: above it at most one closure sees a real dispatcher, whatever
      other threads do. */
  lemma OwnGuardForbidsReentry(states: seq<State>, actions: seq<Action>, i: nat, t: Thread, g: nat, m: nat, n: nat)
    requires Execution(states, actions) && i < |states|
    requires g < m < n < |states[i].At(t).frames|
    requires states[i].At(t).frames[g].Guard?
    requires !states[i].At(t).frames[m].Guard? && !states[i].At(t).frames[n].Guard?
    ensures states[i].At(t).frames[n].Shut?
  {
    DefaultIsTheInnermostGuard(states, actions, i, t);
    var global, frames := states[i].global, states[i].At(t).frames;
    WellformedAt(global, frames, m);
    WellformedAt(global, frames, n);
    InnermostMeaning(frames[..m]);
    InnermostMeaning(frames[..n]);
    assert frames[..m][g].Guard? && frames[..n][g].Guard?;
    EnterableMeaning(frames[..m]);
    EnterableMeaning(frames[..n]);
    if frames[m].Entered? {
      assert frames[..n][m].Entered?;
    } else {
      var e :| 0 <= e < m && frames[..m][e].Entered?;
      assert frames[..n][e].Entered?;
    }
  }

  /** What was open on a thread stays as it was while the thread does not go below it. */
  lemma {:induction false} LowerFramesStay(states: seq<State>, actions: seq<Action>, i: nat, j: nat, t: Thread)
    requires Execution(states, actions) && i <= j < |states|
    requires forall k :: i <= k <= j ==> |states[k].At(t).frames| >= |states[i].At(t).frames|
    ensures states[i].At(t).frames <= states[j].At(t).frames
  {
    if i < j {
      LowerFramesStay(states, actions, i, j - 1, t);
    }
  }

  /**
   * Whatever a thread opens and closes in between, and whatever other threads do, closing it again
   * brings back the thread's earlier default and its re-entrancy flag.
   */
  lemma ClosingRestores(states: seq<State>, actions: seq<Action>, i: nat, j: nat, t: Thread)
    requires Execution(states, actions) && i <= j < |states|
    requires forall k :: i <= k <= j ==> |states[k].At(t).frames| >= |states[i].At(t).frames|
    requires |states[j].At(t).frames| == |states[i].At(t).frames|
    ensures states[j].At(t).default == states[i].At(t).default
    ensures states[j].At(t).canEnter == states[i].At(t).canEnter
  {
    LowerFramesStay(states, actions, i, j, t);
    assert states[i].At(t).frames == states[j].At(t).frames;
    DefaultIsTheInnermostGuard(states, actions, i, t);
    DefaultIsTheInnermostGuard(states, actions, j, t);
  }

  // ----- What one call does -----

  /** `set_default` makes the dispatcher it is given the thread's default, above what was open. */
  lemma SetDefaultInstalls(states: seq<State>, actions: seq<Action>, i: nat, t: Thread, d: Dispatch)
    requires Execution(states, actions) && i < |actions| && actions[i] == SetDefault(t, d)
    ensures
      var before, after := states[i].At(t), states[i + 1].At(t);
      && after.default == Some(d) == Innermost(after.frames)
      && after.frames != [] && Last(after.frames).Guard? && Front(after.frames) == before.frames
      && forall u :: u != t ==> states[i + 1].At(u) == states[i].At(u)
  {
    DefaultIsTheInnermostGuard(states, actions, i + 1, t);
    Pushed(states[i].At(t).frames, Guard(states[i].At(t).default, d));
  }

  /** Dropping the guard again, with others made and dropped in between, brings back the default that the thread had. */
  lemma DropGuardRestores(states: seq<State>, actions: seq<Action>, i: nat, j: nat, t: Thread, d: Dispatch)
    requires Execution(states, actions) && i < j < |actions| && actions[i] == SetDefault(t, d) && actions[j] == DropGuard(t)
    requires forall k :: i < k <= j ==> |states[k].At(t).frames| > |states[i].At(t).frames|
    requires |states[j].At(t).frames| == |states[i].At(t).frames| + 1
    ensures states[j + 1].At(t).default == states[i].At(t).default
    ensures states[j].At(t).default == Some(d)
  {
    SetDefaultInstalls(states, actions, i, t, d);
    LowerFramesStay(states, actions, i + 1, j, t);
    assert states[j].At(t).frames == states[i + 1].At(t).frames;
    DefaultIsTheInnermostGuard(states, actions, j, t);
    DefaultIsTheInnermostGuard(states, actions, i + 1, t);
    DefaultIsTheInnermostGuard(states, actions, i, t);
    DefaultIsTheInnermostGuard(states, actions, j + 1, t);
  }

  /**
   * A call whose closure runs, of `get_default` or `get_current`, and that is not shut out, is given
   * the thread's innermost dispatcher as it begins, or failing that the global default as it looks.
   */
  lemma ClosureIsGivenTheDefault(states: seq<State>, actions: seq<Action>, i: nat, j: nat, t: Thread, kind: Kind)
    requires Execution(states, actions) && i < j < |actions|
    requires actions[i] == Get(t, kind) && actions[j] == Step(t)
    requires forall k :: i < k < j ==> actions[k].t != t
    ensures
      var before, after := states[i].At(t).frames, states[j + 1].At(t).frames;
      |after| > |before| && !Last(after).Shut? ==>
        Given(Last(after)) == if Innermost(before).Some? then Innermost(before) else states[j].global
  {
    OthersLeaveTheThread(states, actions, i + 1, j, t);
    DefaultIsTheInnermostGuard(states, actions, i, t);
    InvHolds(states, actions, j);
    assert LocalOk(states[j].global, states[j].At(t));
  }

  // ----- Nested calls -----

  lemma {:induction false} OthersLeaveTheThread(states: seq<State>, actions: seq<Action>, i: nat, j: nat, t: Thread)
    requires Execution(states, actions) && i <= j < |states|
    requires forall k :: i <= k < j ==> actions[k].t != t
    ensures states[j].At(t) == states[i].At(t)
  {
    if i < j {
      OthersLeaveTheThread(states, actions, i, j - 1, t);
    }
  }

  /** A call of `get_default` is shut out by `enter` exactly when the scoped count is positive as it
      begins and some enclosing call went through `enter` too. */
  lemma NestedCallIsShutOutIff(states: seq<State>, actions: seq<Action>, i: nat, j: nat, t: Thread)
    requires Execution(states, actions) && i < j < |actions|
    requires actions[i] == Get(t, Default) && actions[j] == Step(t)
    requires forall k :: i < k < j ==> actions[k].t != t
    ensures
      var before, after := states[i].At(t).frames, states[j + 1].At(t).frames;
      && |after| == |before| + 1 && Front(after) == before
      && (Last(after).Shut? <==> states[i].count > 0 && exists k :: 0 <= k < |before| && before[k].Entered?)
  {
    OthersLeaveTheThread(states, actions, i + 1, j, t);
    InvHolds(states, actions, i);
    assert LocalOk(states[i].global, states[i].At(t));
    EnterableMeaning(states[i].At(t).frames);
    CountIsTheLiveGuards(states, actions, i);
  }

  /** For a call of `get_current` the same is the condition for returning `None` without running its closure. */
  lemma CurrentReturnsNoneIff(states: seq<State>, actions: seq<Action>, i: nat, j: nat, t: Thread)
    requires Execution(states, actions) && i < j < |actions|
    requires actions[i] == Get(t, Current) && actions[j] == Step(t)
    requires forall k :: i < k < j ==> actions[k].t != t
    ensures
      var before, after := states[i].At(t).frames, states[j + 1].At(t).frames;
      && (after == before || (|after| == |before| + 1 && Front(after) == before && !Last(after).Guard?))
      && (after == before <==> states[i].count > 0 && exists k :: 0 <= k < |before| && before[k].Entered?)
  {
    OthersLeaveTheThread(states, actions, i + 1, j, t);
    InvHolds(states, actions, i);
    assert LocalOk(states[i].global, states[i].At(t));
    EnterableMeaning(states[i].At(t).frames);
    CountIsTheLiveGuards(states, actions, i);
  }

  /**
   * The documentation says that a call of `get_default` inside another one is given `NONE`. It is,
   * exactly when it is shut out in this way or there is nothing else to give: no guard on the thread
   * as it begins, and no global default as it looks.
   */
  lemma CallIsGivenNoneIff(states: seq<State>, actions: seq<Action>, i: nat, j: nat, t: Thread)
    requires Execution(states, actions) && i < j < |actions|
    requires actions[i] == Get(t, Default) && actions[j] == Step(t)
    requires forall k :: i < k < j ==> actions[k].t != t
    ensures
      var before, after := states[i].At(t).frames, states[j + 1].At(t).frames;
      && |after| == |before| + 1
      && (Given(Last(after)) == None <==>
            || (states[i].count > 0 && exists k :: 0 <= k < |before| && before[k].Entered?)
            || (Innermost(before).None? && states[j].global.None?))
  {
    NestedCallIsShutOutIff(states, actions, i, j, t);
    OthersLeaveTheThread(states, actions, i + 1, j, t);
    DefaultIsTheInnermostGuard(states, actions, i, t);
    InvHolds(states, actions, j);
    assert LocalOk(states[j].global, states[j].At(t));
  }

  /** So with only a global default set, both a closure and the one inside it see it. */
  lemma NestedOnTheFastPathSeesTheGlobal(d: Dispatch)
    returns (states: seq<State>, actions: seq<Action>)
    ensures Execution(states, actions)
    ensures states[|states| - 1].At(0).frames == [Fast(Some(d)), Fast(Some(d))]
  {
    actions := [SetGlobal(0, d), Get(0, Default), Step(0), Get(0, Default), Step(0)];
    var s0 := State(0, None, map[]);
    var s1 := Perform(s0, actions[0]);
    var s2 := Perform(s1, actions[1]);
    var s3 := Perform(s2, actions[2]);
    var s4 := Perform(s3, actions[3]);
    var s5 := Perform(s4, actions[4]);
    states := [s0, s1, s2, s3, s4, s5];
  }

  /** And after a closure on the fast path, a guard of another thread lets the call inside it `enter`. */
  lemma NestedAfterAnothersGuardSeesTheGlobal(d: Dispatch, e: Dispatch)
    returns (states: seq<State>, actions: seq<Action>)
    ensures Execution(states, actions)
    ensures states[|states| - 1].At(0).frames == [Fast(Some(d)), Entered(Some(d))]
  {
    actions := [SetGlobal(0, d), Get(0, Default), Step(0), SetDefault(1, e), Step(1), Get(0, Default), Step(0)];
    var s0 := State(0, None, map[]);
    var s1 := Perform(s0, actions[0]);
    var s2 := Perform(s1, actions[1]);
    var s3 := Perform(s2, actions[2]);
    var s4 := Perform(s3, actions[3]);
    var s5 := Perform(s4, actions[4]);
    var s6 := Perform(s5, actions[5]);
    var s7 := Perform(s6, actions[6]);
    states := [s0, s1, s2, s3, s4, s5, s6, s7];
  }
}
