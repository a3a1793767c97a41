/**
 * Whom a rebuild under a guard asks: everyone registered who is still alive when it has asked, and
 * nobody who was not alive when it began to ask.
 */
module CallsiteAsked {
  import opened Options
  import opened Interests
  import opened LevelFilters
  import opened CallsiteRegistry
  import opened CallsiteProofs

  /** Whom the thread has asked the question that it is at. */
  function AskedOf(pc: Pc): Option<seq<Dispatch>> {
    match pc
    case MaxAsk(_, _, asked, _) => Some(asked)
    case HeadLoad(_, asked, _) => Some(asked)
    case Ask(_, _, _, asked, _) => Some(asked)
    case SetInterest(_, _, asked, _) => Some(asked)
    case _ => None
  }

  /** One step adds at most one dispatcher, a living one; or begins the next question. */
  lemma AskedStep(w: World, s: State, pc: Pc, heard: Interest, level: LevelFilter)
    requires AskedOf(pc).Some? && AskedOf(Target(w, s, pc, heard, level)).Some?
    ensures
      var asked, asked' := AskedOf(pc).value, AskedOf(Target(w, s, pc, heard, level)).value;
      forall d <- asked' :: d in asked || (d in s.disp.vec && d in s.live)
  {
  }

  /** Whoever was asked by thread `t` was alive then. */
  ghost predicate AskedAlive(s: State, t: Thread, alive: set<Dispatch>) {
    AskedOf(s.Pc(t)).Some? ==> forall d <- AskedOf(s.Pc(t)).value :: d in alive
  }

  /** Of the registered dispatchers that were registered before, nobody has come to life. */
  ghost predicate Older(s: State, alive: set<Dispatch>) {
    forall d <- s.disp.vec :: d in s.live ==> d in alive
  }

  lemma OlderStep(w: World, s: State, a: Action, s': State, t: Thread, alive: set<Dispatch>)
    requires Locks(s) && UpToDate(s) && Older(s, alive) && Enabled(s, a) && s' == Perform(w, s, a)
    requires GuardOf(s.Pc(t)).Some? && !GuardOf(s.Pc(t)).value.JustOne? && !s.Pc(t).Retain?
    ensures Older(s', alive)
  {
    if a.Advance? {
      VectorsKept(s, s', a.t);
      assert GuardOf(s.Pc(a.t)) == Some(Write) <==> s.disp.writer == Some(a.t);
      assert GuardOf(s.Pc(t)) == Some(Read) <==> t in s.disp.readers;
    } else {
      EnvironmentIsQuiet(w, s, a);
    }
  }

  lemma AskedAliveStep(w: World, s: State, a: Action, s': State, t: Thread, alive: set<Dispatch>)
    requires Older(s, alive) && AskedAlive(s, t, alive) && Enabled(s, a) && s' == Perform(w, s, a)
    requires AskedOf(s.Pc(t)).Some?
    ensures AskedAlive(s', t, alive)
  {
    if a.Advance? && a.t == t && AskedOf(s'.Pc(t)).Some? {
      AskedStep(w, s, s.Pc(t), a.heard, a.level);
    }
  }

  /** Thread `t` is at the beginning of its question in state `i`, and asks on up to state `k`. */
  ghost predicate Asking(states: seq<State>, i: nat, k: nat, t: Thread)
    requires i <= k < |states|
  {
    && AskedOf(states[i].Pc(t)) == Some([])
    && forall j :: i <= j <= k ==>
         AskedOf(states[j].Pc(t)).Some? && GuardOf(states[j].Pc(t)).Some? && !GuardOf(states[j].Pc(t)).value.JustOne?
  }

  lemma StepAt(w: World, states: seq<State>, actions: seq<Action>, j: nat, t: Thread, alive: set<Dispatch>)
    requires Execution(w, states, actions) && j < |actions|
    requires Older(states[j], alive) && AskedAlive(states[j], t, alive)
    requires AskedOf(states[j].Pc(t)).Some? && GuardOf(states[j].Pc(t)).Some? && !GuardOf(states[j].Pc(t)).value.JustOne?
    ensures Older(states[j + 1], alive) && AskedAlive(states[j + 1], t, alive)
  {
    InvHolds(w, states, actions, j);
    OlderStep(w, states[j], actions[j], states[j + 1], t, alive);
    AskedAliveStep(w, states[j], actions[j], states[j + 1], t, alive);
  }

  lemma {:induction false} AskedWereAlive(w: World, states: seq<State>, actions: seq<Action>, i: nat, k: nat, t: Thread)
    requires Execution(w, states, actions) && i <= k < |states| && Asking(states, i, k, t)
    ensures Older(states[k], states[i].live) && AskedAlive(states[k], t, states[i].live)
  {
    if i < k {
      assert Asking(states, i, k - 1, t);
      AskedWereAlive(w, states, actions, i, k - 1, t);
      StepAt(w, states, actions, k - 1, t, states[i].live);
    }
  }

  /** The combined answer of dispatchers that include everyone registered and alive in `s`, and nobody outside `alive`. */
  ghost predicate CombinedOf(w: World, s: State, c: Callsite, value: Interest, alive: set<Dispatch>) {
    exists asked: seq<Dispatch> ::
      && value == Common(Answers(w, asked, c))
      && (forall d <- s.live :: d in s.disp.registered ==> d in asked)
      && (forall d <- asked :: d in alive && d in s.disp.registered)
  }

  /**
   * The interest that a thread under a guard is about to store for a callsite is the combined answer of
   * everyone registered who is still alive, and of nobody who was not alive when it began to ask: the
   * dead have no say. The level that it goes on with is the largest hint of such dispatchers.
   */
  lemma OnlyTheLivingAreAsked(w: World, states: seq<State>, actions: seq<Action>, i: nat, k: nat, t: Thread)
    requires Execution(w, states, actions) && i <= k < |states| && Asking(states, i, k, t)
    ensures
      var s, pc := states[k], states[k].Pc(t);
      && (pc.SetInterest? ==> CombinedOf(w, s, pc.c, pc.value, states[i].live))
      && (pc.HeadLoad? ==>
            && pc.level == Largest(Hints(w, pc.asked))
            && (forall d <- s.live :: d in s.disp.registered ==> d in pc.asked)
            && (forall d <- pc.asked :: d in states[i].live && d in s.disp.registered))
  {
    AskedWereAlive(w, states, actions, i, k, t);
    InvHolds(w, states, actions, k);
    var s, pc := states[k], states[k].Pc(t);
    assert AskOk(w, s, pc);
  }

  /** If nobody registered died meanwhile, that is the combined answer of exactly the living. */
  lemma CombinedOfExactly(w: World, s: State, c: Callsite, value: Interest, alive: set<Dispatch>, living: seq<Dispatch>)
    requires CombinedOf(w, s, c, value, alive)
    requires forall d :: d in living <==> d in s.live && d in s.disp.registered
    requires forall d <- alive :: d in s.disp.registered ==> d in s.live
    ensures value == Common(Answers(w, living, c))
  {
    var asked: seq<Dispatch> :|
      && value == Common(Answers(w, asked, c))
      && (forall d <- s.live :: d in s.disp.registered ==> d in asked)
      && (forall d <- asked :: d in alive && d in s.disp.registered);
    assert forall d :: d in asked <==> d in living;
    SameAnswers(w, asked, living, c);
    SameAnswers(w, living, asked, c);
    var xs, ys := Answers(w, asked, c), Answers(w, living, c);
    assert (set x <- xs) == (set y <- ys);
    CommonIgnoresOrder(xs, ys);
  }

  lemma SameAnswers(w: World, xs: seq<Dispatch>, ys: seq<Dispatch>, c: Callsite)
    requires forall d <- xs :: d in ys
    ensures forall a <- Answers(w, xs, c) :: a in Answers(w, ys, c)
  {
    forall i | 0 <= i < |xs| ensures Answers(w, xs, c)[i] in Answers(w, ys, c) {
      assert xs[i] in ys;
      var j :| 0 <= j < |ys| && ys[j] == xs[i];
      assert Answers(w, ys, c)[j] == Answers(w, xs, c)[i];
    }
  }
}
