/**
 * List mode: once a `register_dispatch` has cleared `has_just_one`, its own rebuild takes back every
 * cached interest that an earlier rebuild asked its own default for.
 */
module CallsiteListMode {
  import opened Options
  import opened Interests
  import opened LevelFilters
  import opened CallsiteRegistry
  import opened CallsiteProofs
  import opened CallsiteTheorems

  // ----- Whatever was stored belongs to a published callsite -----

  ghost predicate TaintedArePublished(s: State) {
    forall c <- s.cache.tainted :: Published(s, c)
  }

  lemma StoresArePublished(w: World, s: State, t: Thread)
    requires Inv(w, s) && s.Pc(t).SetInterest?
    ensures Published(s, s.Pc(t).c)
  {
    assert OwnerOk(s, t) && AskOk(w, s, s.Pc(t)) && WalkOk(w, s, s.Pc(t));
  }

  lemma TaintedStayPublished(w: World, s: State, s': State, t: Thread)
    requires TaintedArePublished(s) && s'.cache == CacheAfter(s, s.Pc(t))
    requires s.links.pushed <= s'.links.pushed && s.dyns.vec <= s'.dyns.vec
    requires s.Pc(t).SetInterest? ==> Published(s, s.Pc(t).c)
    ensures TaintedArePublished(s')
  {
    forall c | c in s'.cache.tainted ensures Published(s', c) {
      assert Published(s, c);
    }
  }

  lemma {:induction false} TaintedPublishedHolds(w: World, states: seq<State>, actions: seq<Action>, i: nat)
    requires Execution(w, states, actions) && i < |states|
    ensures TaintedArePublished(states[i])
  {
    if i > 0 {
      TaintedPublishedHolds(w, states, actions, i - 1);
      var s, s', a := states[i - 1], states[i], actions[i - 1];
      InvHolds(w, states, actions, i - 1);
      if a.Advance? {
        MoveIsAStep(w, s, a.t, a.heard, a.level);
        MoveKeepsInv(w, s, s', a.t);
        VectorsKept(s, s', a.t);
        if s.Pc(a.t).SetInterest? { StoresArePublished(w, s, a.t); }
        TaintedStayPublished(w, s, s', a.t);
      } else {
        EnvironmentIsQuiet(w, s, a);
        forall c | c in s'.cache.tainted ensures Published(s', c) {
          assert Published(s, c);
        }
      }
    }
  }

  // ----- The rebuild that begins list mode -----

  /** Whatever a default was asked for, a running `register_dispatch` has yet to ask everyone for. */
  ghost predicate BeingRebuilt(s: State) {
    && (forall c <- s.cache.tainted :: s.disp.writer.Some? && Pending(s, s.Pc(s.disp.writer.value), c))
    && (s.max.asked.None? ==> s.disp.writer.Some? && !s.Pc(s.disp.writer.value).Release?)
  }

  /** A step of the thread that rebuilds. */
  lemma WriterRebuilds(w: World, s: State, s': State, t: Thread)
    requires Inv(w, s) && Moved(w, s, s', t) && BeingRebuilt(s) && TaintedArePublished(s)
    requires s.disp.writer == Some(t) && s.links.pushed <= s'.links.pushed && s.dyns.vec <= s'.dyns.vec
    ensures BeingRebuilt(s')
  {
    var pc := s.Pc(t);
    assert GuardOf(pc) == Some(Write) && AskOk(w, s, pc);
    assert s'.disp.writer == (if pc.Release? then None else Some(t));
    forall c | c in s'.cache.tainted ensures s'.disp.writer.Some? && Pending(s', s'.Pc(t), c) {
      assert c in s.cache.tainted && Published(s, c) && Pending(s, pc, c);
      PendingGrows(s, s', s'.Pc(t), c);
    }
  }

  /** A step of another thread, none of which asks its default. */
  lemma OthersLetRebuild(w: World, s: State, s': State, t: Thread)
    requires Locks(s) && Moved(w, s, s', t) && BeingRebuilt(s) && NoJustOne(s)
    requires s.disp.writer != Some(t) && Enabled(s, Advance(t, Never, Off))
    requires s.links.pushed <= s'.links.pushed && s.dyns.vec <= s'.dyns.vec
    ensures BeingRebuilt(s')
  {
    var pc := s.Pc(t);
    assert GuardOf(pc) != Some(Write) && GuardOf(pc) != Some(JustOne);
    if s.disp.writer.Some? {
      var u := s.disp.writer.value;
      assert s'.disp.writer == s.disp.writer && s'.Pc(u) == s.Pc(u);
      forall c | c in s'.cache.tainted ensures Pending(s', s'.Pc(u), c) {
        assert c in s.cache.tainted;
        PendingGrows(s, s', s.Pc(u), c);
      }
    }
  }

  lemma StepLetsRebuild(w: World, s: State, a: Action, s': State)
    requires Inv(w, s) && Enabled(s, a) && s' == Perform(w, s, a)
    requires BeingRebuilt(s) && NoJustOne(s) && TaintedArePublished(s)
    ensures BeingRebuilt(s')
  {
    if a.Advance? {
      MoveIsAStep(w, s, a.t, a.heard, a.level);
      MoveKeepsInv(w, s, s', a.t);
      VectorsKept(s, s', a.t);
      if s.disp.writer == Some(a.t) { WriterRebuilds(w, s, s', a.t); } else { OthersLetRebuild(w, s, s', a.t); }
    } else {
      EnvironmentIsQuiet(w, s, a);
      EnvironmentLetsRebuild(w, s, s');
    }
  }

  lemma EnvironmentLetsRebuild(w: World, s: State, s': State)
    requires Inv(w, s) && Undisturbed(s, s') && BeingRebuilt(s)
    ensures BeingRebuilt(s')
  {
    if s.disp.writer.Some? {
      var u := s.disp.writer.value;
      assert GuardOf(s.Pc(u)) == Some(Write) && s'.Pc(u) == s.Pc(u);
      forall c | c in s'.cache.tainted ensures Pending(s', s'.Pc(u), c) {
        PendingGrows(s, s', s.Pc(u), c);
      }
    }
  }

  // ----- From then on -----

  /** Step `k` clears `has_just_one`, or leaves it cleared, while no rebuild that asks only its own
      default is in flight, and it stays cleared up to state `i`. */
  ghost predicate ListModeFrom(states: seq<State>, actions: seq<Action>, k: nat, i: nat)
    requires k < i < |states| == |actions| + 1
  {
    && actions[k].Advance? && states[k].Pc(actions[k].t).StoreJustOne?
    && NoJustOne(states[k + 1])
    && forall j :: k < j <= i ==> !states[j].justOne
  }

  lemma RebuildBegins(w: World, s: State, a: Action, s': State)
    requires Locks(s) && Enabled(s, a) && s' == Perform(w, s, a)
    requires a.Advance? && s.Pc(a.t).StoreJustOne?
    ensures BeingRebuilt(s')
  {
    assert GuardOf(s.Pc(a.t)) == Some(Write);
    assert s'.Pc(a.t) == MaxAsk(Write, 0, [], Off) && s'.disp.writer == Some(a.t);
  }

  lemma StepKeepsListMode(w: World, states: seq<State>, actions: seq<Action>, i: nat)
    requires Execution(w, states, actions) && i < |actions| && !states[i].justOne
    requires BeingRebuilt(states[i]) && NoJustOne(states[i])
    ensures NoJustOne(states[i + 1]) && BeingRebuilt(states[i + 1])
  {
    InvHolds(w, states, actions, i);
    TaintedPublishedHolds(w, states, actions, i);
    StepLetsRebuild(w, states[i], actions[i], states[i + 1]);
    NoJustOneBegins(w, states[i], actions[i]);
  }

  lemma {:induction false} ListModeKeeps(w: World, states: seq<State>, actions: seq<Action>, k: nat, i: nat)
    requires Execution(w, states, actions) && k < i < |states| && ListModeFrom(states, actions, k, i)
    ensures NoJustOne(states[i]) && BeingRebuilt(states[i])
  {
    if i == k + 1 {
      InvHolds(w, states, actions, k);
      RebuildBegins(w, states[k], actions[k], states[i]);
    } else {
      assert ListModeFrom(states, actions, k, i - 1);
      ListModeKeeps(w, states, actions, k, i - 1);
      StepKeepsListMode(w, states, actions, i - 1);
    }
  }

  lemma NoJustOneBegins(w: World, s: State, a: Action)
    requires Enabled(s, a) && NoJustOne(s) && !s.justOne
    ensures NoJustOne(Perform(w, s, a))
  {
    if a.Advance? {
      assert GuardOf(s.Pc(a.t)) != Some(JustOne);
      JustOneArises(w, s, s.Pc(a.t), a.heard, a.level);
    }
    assert forall u :: Perform(w, s, a).Pc(u) == s.Pc(u) || (!a.Drop? && u == a.t);
  }

  /** `MAX_LEVEL` lets the level through if the dispatcher's hint does. */
  ghost predicate LetsThrough(w: World, s: State, d: Dispatch, level: Level) {
    HintOf(w, d).Passes(level) ==> s.max.raw <= OFF_USIZE && Current(s.max.raw).Passes(level)
  }

  /**
   * List-mode soundness. From the `register_dispatch` on that leaves `has_just_one` cleared, with no
   * default being asked at that moment and as long as it stays cleared, in every interleaving and
   * whatever the callsites cached before: whenever no `register_dispatch` holds the write lock, every
   * registered callsite caches the combined interest of the living, and `MAX_LEVEL` lets through
   * every level that some living dispatcher's hint lets through.
   */
  lemma ListModeIsSound(w: World, states: seq<State>, actions: seq<Action>, k: nat, i: nat)
    requires Execution(w, states, actions) && k < i < |states| && ListModeFrom(states, actions, k, i)
    requires states[i].disp.writer == None
    ensures
      var s := states[i];
      && s.cache.tainted == {} && s.max.asked.Some?
      && (forall c :: s.Reg(c) == Registered || c in s.cache.interest ==> CombinesTheLiving(w, s, c) && Sound(w, s, c))
      && (forall d, level :: d in s.live && d in s.disp.registered ==> LetsThrough(w, s, d, level))
  {
    ListModeKeeps(w, states, actions, k, i);
    var s := states[i];
    assert s.cache.tainted == {};
    forall c | s.Reg(c) == Registered || c in s.cache.interest ensures CombinesTheLiving(w, s, c) && Sound(w, s, c) {
      InterestCacheIsSound(w, states, actions, i, c);
    }
    forall d, level | d in s.live && d in s.disp.registered ensures LetsThrough(w, s, d, level) {
      MaxLevelIsSound(w, states, actions, i, d, level);
    }
  }
}
