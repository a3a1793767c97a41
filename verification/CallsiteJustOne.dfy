/**
 * `has_just_one`: when it is set, whom `register_dispatch` keeps, and what a rebuild that asks only
 * its own default stores when that default is the one dispatcher there is.
 */
module CallsiteJustOne {
  import opened Options
  import opened Interests
  import opened LevelFilters
  import opened CallsiteRegistry
  import opened CallsiteProofs
  import opened CallsiteTheorems
  import opened CallsiteModes

  // ----- The flag -----

  /** The flag is right, unless a `register_dispatch` is on its way to storing it. */
  ghost predicate FlagOk(s: State) {
    s.disp.writer == None || !BeforeFlag(s.Pc(s.disp.writer.value)) ==> (s.justOne <==> |s.disp.vec| <= 1)
  }

  predicate BeforeFlag(pc: Pc) {
    pc.Retain? || pc.StoreJustOne?
  }

  lemma FlagSteps(w: World, s: State, pc: Pc, heard: Interest, level: LevelFilter)
    requires pc.DispatchLock? || pc.Retain?
    ensures BeforeFlag(Target(w, s, pc, heard, level))
  {
  }

  lemma MoveKeepsFlag(w: World, s: State, s': State, t: Thread)
    requires Locks(s) && Locks(s') && FlagOk(s) && Enabled(s, Advance(t, Never, Off))
    requires s'.disp == DispAfter(s, t, s.Pc(t)) && s'.justOne == JustOneAfter(s, s.Pc(t))
    requires s'.threads == s.threads[t := s'.Pc(t)]
    requires s.Pc(t).DispatchLock? || s.Pc(t).Retain? ==> BeforeFlag(s'.Pc(t))
    ensures FlagOk(s')
  {
    assert forall u :: u != t ==> s'.Pc(u) == s.Pc(u);
    assert BeforeFlag(s.Pc(t)) ==> s.disp.writer == Some(t);
    assert BeforeFlag(s'.Pc(t)) ==> s'.disp.writer == Some(t);
  }

  lemma StepKeepsFlag(w: World, s: State, a: Action, s': State)
    requires Locks(s) && Locks(s') && FlagOk(s) && Enabled(s, a) && s' == Perform(w, s, a)
    ensures FlagOk(s')
  {
    if a.Advance? {
      if s.Pc(a.t).DispatchLock? || s.Pc(a.t).Retain? {
        FlagSteps(w, s, s.Pc(a.t), a.heard, a.level);
      }
      MoveKeepsFlag(w, s, s', a.t);
    } else {
      EnvironmentIsQuiet(w, s, a);
      QuietKeepsFlag(s, s');
    }
  }

  lemma LocksHold(w: World, states: seq<State>, actions: seq<Action>, i: nat)
    requires Execution(w, states, actions) && i < |states|
    ensures Locks(states[i]) && UpToDate(states[i])
  {
    InvHolds(w, states, actions, i);
  }

  lemma {:induction false} FlagHolds(w: World, states: seq<State>, actions: seq<Action>, i: nat)
    requires Execution(w, states, actions) && i < |states|
    ensures FlagOk(states[i])
  {
    if i > 0 {
      FlagHolds(w, states, actions, i - 1);
      LocksHold(w, states, actions, i - 1);
      LocksHold(w, states, actions, i);
      StepKeepsFlag(w, states[i - 1], actions[i - 1], states[i]);
    }
  }

  lemma QuietKeepsFlag(s: State, s': State)
    requires Locks(s) && FlagOk(s) && Undisturbed(s, s')
    ensures FlagOk(s')
  {
    if s.disp.writer.Some? {
      assert GuardOf(s.Pc(s.disp.writer.value)) == Some(Write);
    }
  }

  /**
   * Whenever no `register_dispatch` holds the write lock, `has_just_one` is set exactly if at most one
   * dispatcher is listed; so if it is set, at most one registered dispatcher is alive.
   */
  lemma JustOneMeansAtMostOne(w: World, states: seq<State>, actions: seq<Action>, i: nat)
    requires Execution(w, states, actions) && i < |states| && states[i].disp.writer == None
    ensures
      var s := states[i];
      && (s.justOne <==> |s.disp.vec| <= 1)
      && (s.justOne ==> forall d, e :: d in s.live && d in s.disp.registered && e in s.live && e in s.disp.registered ==> d == e)
  {
    FlagHolds(w, states, actions, i);
    InvHolds(w, states, actions, i);
  }

  // ----- Whom `retain` keeps -----

  /** The dispatchers that `retain` has looked at were alive when the lock was taken. */
  ghost predicate Retained(s: State, t: Thread, alive: set<Dispatch>) {
    && (s.Pc(t).Retain? ==>
          && s.Pc(t).i <= |s.disp.vec|
          && (forall j :: 0 <= j < s.Pc(t).i ==> s.disp.vec[j] in alive)
          && (forall d <- s.disp.vec :: d in s.live ==> d in alive))
  }

  lemma RetainStep(w: World, s: State, s': State, t: Thread, a: Action, alive: set<Dispatch>)
    requires Retained(s, t, alive) && s.Pc(t).Retain? && s'.Pc(t).Retain? && Locks(s) && Locks(s') && UpToDate(s)
    requires Enabled(s, a) && s' == Perform(w, s, a)
    ensures Retained(s', t, alive) && s'.Pc(t).d == s.Pc(t).d
  {
    assert s.disp.writer == Some(t);
    if a.Advance? && a.t != t {
      assert GuardOf(s.Pc(a.t)) != Some(Write) && s'.disp.vec == s.disp.vec;
    }
  }

  lemma RetainBegins(w: World, s: State, s': State, t: Thread, a: Action)
    requires s.Pc(t).DispatchLock? && s'.Pc(t).Retain? && Enabled(s, a) && s' == Perform(w, s, a)
    ensures Retained(s', t, s.live) && s'.Pc(t).d == s.Pc(t).d
  {
  }

  /** One more step of a run in which `t` stays in `retain`. */
  lemma RetainAt(w: World, states: seq<State>, actions: seq<Action>, k: nat, t: Thread, alive: set<Dispatch>)
    requires Execution(w, states, actions) && k < |actions|
    requires states[k].Pc(t).Retain? && states[k + 1].Pc(t).Retain? && Retained(states[k], t, alive)
    ensures Retained(states[k + 1], t, alive) && states[k + 1].Pc(t).d == states[k].Pc(t).d
  {
    LocksHold(w, states, actions, k);
    LocksHold(w, states, actions, k + 1);
    RetainStep(w, states[k], states[k + 1], t, actions[k], alive);
  }

  lemma {:induction false} RetainedSoFar(w: World, states: seq<State>, actions: seq<Action>, i: nat, k: nat, t: Thread)
    requires Execution(w, states, actions) && i < k < |states|
    requires states[i].Pc(t).DispatchLock? && forall j :: i < j <= k ==> states[j].Pc(t).Retain?
    ensures Retained(states[k], t, states[i].live) && states[k].Pc(t).d == states[i].Pc(t).d
  {
    if k == i + 1 {
      RetainBegins(w, states[i], states[k], t, actions[i]);
    } else {
      RetainedSoFar(w, states, actions, i, k - 1, t);
      RetainAt(w, states, actions, k - 1, t, states[i].live);
    }
  }

  lemma RetainEnds(w: World, s: State, s': State, t: Thread, a: Action, alive: set<Dispatch>)
    requires Retained(s, t, alive) && s.Pc(t).Retain? && s'.Pc(t).StoreJustOne?
    requires Enabled(s, a) && s' == Perform(w, s, a)
    ensures s.Pc(t).d in s'.disp.vec && forall e <- s'.disp.vec :: e == s.Pc(t).d || e in alive
  {
  }

  /**
   * A `register_dispatch` lists, besides its own dispatcher, only dispatchers that were alive when it
   * took the lock, and all that are still alive: the dead do not keep the list mode going.
   */
  lemma OnlyTheLivingAreListed(w: World, states: seq<State>, actions: seq<Action>, i: nat, k: nat, t: Thread)
    requires Execution(w, states, actions) && i < k < |actions|
    requires states[i].Pc(t).DispatchLock? && states[k + 1].Pc(t).StoreJustOne?
    requires forall j :: i < j <= k ==> states[j].Pc(t).Retain?
    ensures
      var d, vec := states[i].Pc(t).d, states[k + 1].disp.vec;
      && d in vec
      && (forall e <- vec :: e == d || e in states[i].live)
      && (forall e :: e in states[k + 1].live && e in states[k + 1].disp.registered ==> e in vec)
  {
    RetainedSoFar(w, states, actions, i, k, t);
    RetainEnds(w, states[k], states[k + 1], t, actions[k], states[i].live);
    LocksHold(w, states, actions, k + 1);
  }

  /** `retain` ends: the thread's own steps lead through it. */
  lemma {:induction false} RetainTerminates(w: World, s: State, t: Thread) returns (heard: seq<Heard>, s': State)
    requires s.Pc(t).Retain? && s.Pc(t).i <= |s.disp.vec|
    ensures OwnRun(w, s, t, heard, s') && s'.Pc(t).StoreJustOne?
    decreases |s.disp.vec| - s.Pc(t).i
  {
    var h := Heard(Never, Off);
    var next := Move(w, s, t, h.interest, h.level);
    if s.Pc(t).i == |s.disp.vec| {
      heard, s' := [], next;
      assert OwnRun(w, next, t, [], next);
    } else {
      heard, s' := RetainTerminates(w, next, t);
    }
    assert ([h] + heard)[1..] == heard;
    heard := [h] + heard;
  }

  // ----- A rebuild that asks its default -----

  /** Whenever thread `t` asks its default, that is `d`. */
  ghost predicate Asks(w: World, s: State, a: Action, t: Thread, d: Dispatch) {
    a.Advance? && a.t == t ==>
      && (s.Pc(t).Ask? ==> a.heard == w.answer(d, s.Pc(t).c))
      && (s.Pc(t).MaxAsk? ==> a.level == HintOf(w, d))
  }

  /** What a thread whose default is `d` carries through a `JustOne` rebuild. */
  ghost predicate Carries(w: World, pc: Pc, d: Dispatch) {
    GuardOf(pc) == Some(JustOne) ==>
      && (pc.MaxAsk? ==> pc.level == Off)
      && (pc.HeadLoad? ==> pc.level == HintOf(w, d))
      && (WalkOf(pc).Some? ==> WalkOf(pc).value.level == HintOf(w, d))
      && (pc.SetInterest? ==> pc.value == w.answer(d, pc.c))
  }

  lemma CarriesOn(w: World, s: State, pc: Pc, heard: Interest, level: LevelFilter, d: Dispatch)
    requires Carries(w, pc, d)
    requires pc.Ask? ==> heard == w.answer(d, pc.c)
    requires pc.MaxAsk? ==> level == HintOf(w, d)
    ensures Carries(w, Target(w, s, pc, heard, level), d)
  {
  }

  lemma {:induction false} CarriesThrough(w: World, states: seq<State>, actions: seq<Action>, i: nat, t: Thread, d: Dispatch)
    requires Execution(w, states, actions) && i < |states|
    requires forall j :: 0 <= j < i ==> Asks(w, states[j], actions[j], t, d)
    ensures Carries(w, states[i].Pc(t), d)
  {
    if i > 0 {
      CarriesThrough(w, states, actions, i - 1, t, d);
      var s, a := states[i - 1], actions[i - 1];
      assert Asks(w, s, a, t, d);
      if a.Advance? && a.t == t {
        CarriesOn(w, s, s.Pc(t), a.heard, a.level, d);
      }
    }
  }

  /**
   * A thread whose default is `d` throughout stores, in a rebuild that asks only its default, the
   * answer of `d` for every callsite, of a registration and of a full rebuild alike, and the hint of `d`
   * as the maximum level. If `d` is the one registered dispatcher alive, the interest is sound.
   */
  lemma DefaultAnswersAreStored(w: World, states: seq<State>, actions: seq<Action>, i: nat, t: Thread, d: Dispatch)
    requires Execution(w, states, actions) && i < |actions| && actions[i].Advance? && actions[i].t == t
    requires forall j :: 0 <= j < i ==> Asks(w, states[j], actions[j], t, d)
    requires GuardOf(states[i].Pc(t)) == Some(JustOne)
    ensures
      var pc, s' := states[i].Pc(t), states[i + 1];
      && (pc.SetInterest? ==> pc.c in s'.cache.interest && s'.cache.interest[pc.c] == w.answer(d, pc.c))
      && (pc.SetInterest? && (forall e :: e in s'.live && e in s'.disp.registered ==> e == d) ==> Sound(w, s', pc.c))
      && (pc.SetMax? ==> Current(s'.max.raw) == HintOf(w, d))
  {
    CarriesThrough(w, states, actions, i, t, d);
    SetMaxThenCurrent(HintOf(w, d), 0);
  }
}
