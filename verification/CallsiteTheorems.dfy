/**
 * What the callsite registry guarantees in every execution.
 */
module CallsiteTheorems {
  import opened Options
  import opened Interests
  import opened LevelFilters
  import opened CallsiteRegistry
  import opened CallsiteProofs

  /** The cached interest is the combined answer of dispatchers that include everyone registered and alive. */
  ghost predicate CombinesTheLiving(w: World, s: State, c: Callsite) {
    exists asked: seq<Dispatch> ::
      && c in s.cache.interest && s.cache.interest[c] == Common(Answers(w, asked, c))
      && (forall d <- asked :: d in s.disp.registered)
      && (forall d <- s.live :: d in s.disp.registered ==> d in asked)
  }

  /** A cached `Never` or `Always` speaks for every registered dispatcher that is alive. */
  ghost predicate Sound(w: World, s: State, c: Callsite) {
    && c in s.cache.interest
    && (s.cache.interest[c] == Never ==> forall d <- s.live :: d in s.disp.registered ==> w.answer(d, c) == Never)
    && (s.cache.interest[c] == Always ==> forall d <- s.live :: d in s.disp.registered ==> w.answer(d, c) == Always)
  }

  lemma CombinedIsSound(w: World, s: State, c: Callsite)
    requires CombinesTheLiving(w, s, c)
    ensures Sound(w, s, c)
  {
    var asked: seq<Dispatch> :|
      && c in s.cache.interest && s.cache.interest[c] == Common(Answers(w, asked, c))
      && (forall d <- s.live :: d in s.disp.registered ==> d in asked);
    var answers := Answers(w, asked, c);
    CommonMeaning(answers);
    forall d | d in asked ensures w.answer(d, c) in answers {
      var i :| 0 <= i < |asked| && asked[i] == d;
      assert answers[i] == w.answer(d, c);
    }
  }

  /**
   * Whenever no `register_dispatch` holds the write lock, every callsite whose registration has
   * completed caches the combined interest of the living, unless its value was last stored by a
   * rebuild that found `has_just_one` set and asked only its own default.
   */
  lemma InterestCacheIsSound(w: World, states: seq<State>, actions: seq<Action>, i: nat, c: Callsite)
    requires Execution(w, states, actions) && i < |states|
    requires states[i].disp.writer == None && c !in states[i].cache.tainted
    requires states[i].Reg(c) == Registered || c in states[i].cache.interest
    ensures CombinesTheLiving(w, states[i], c) && Sound(w, states[i], c)
  {
    InvHolds(w, states, actions, i);
    var s := states[i];
    assert c in s.cache.asked && Fresh(s, c);
    CombinedIsSound(w, s, c);
  }

  /** At the same points, `MAX_LEVEL` lets through every level that some living dispatcher's hint lets through. */
  lemma MaxLevelIsSound(w: World, states: seq<State>, actions: seq<Action>, i: nat, d: Dispatch, level: Level)
    requires Execution(w, states, actions) && i < |states|
    requires states[i].disp.writer == None && states[i].max.asked.Some?
    requires d in states[i].live && d in states[i].disp.registered
    ensures states[i].max.raw <= OFF_USIZE
    ensures Current(states[i].max.raw).AtLeast(HintOf(w, d))
    ensures HintOf(w, d).Passes(level) ==> Current(states[i].max.raw).Passes(level)
  {
    InvHolds(w, states, actions, i);
    var s := states[i];
    var asked := s.max.asked.value;
    assert d in asked;
    var k :| 0 <= k < |asked| && asked[k] == d;
    var hints := Hints(w, asked);
    assert hints[k] == HintOf(w, d);
    LargestMeaning(hints, level);
    SetMaxThenCurrent(Largest(hints), s.max.raw);
  }

  /** So it lets through what a living dispatcher's own hint does, and everything if one gives no hint. */
  lemma HintsAreHonoured(w: World, states: seq<State>, actions: seq<Action>, i: nat, d: Dispatch, level: Level)
    requires Execution(w, states, actions) && i < |states|
    requires states[i].disp.writer == None && states[i].max.asked.Some?
    requires d in states[i].live && d in states[i].disp.registered
    requires w.hint(d).None? || (w.hint(d).value.UpTo? && Verbosity(level) <= Verbosity(w.hint(d).value.level))
    ensures states[i].max.raw <= OFF_USIZE && Current(states[i].max.raw).Passes(level)
  {
    MaxLevelIsSound(w, states, actions, i, d, level);
    OrderIsInclusion(HintOf(w, d), Off, level);
  }

  /** No thread is in the middle of a rebuild that asks only its own default. */
  ghost predicate NoJustOne(s: State) {
    forall t :: GuardOf(s.Pc(t)) != Some(JustOne)
  }

  /** As long as `has_just_one` stays false, the exemption of `InterestCacheIsSound` never arises. */
  lemma {:induction false} ListModeNeverTaints(w: World, states: seq<State>, actions: seq<Action>, from: nat, i: nat)
    requires Execution(w, states, actions) && from <= i < |states|
    requires NoJustOne(states[from]) && states[from].cache.tainted == {} && states[from].max.asked.Some?
    requires forall j :: from <= j <= i ==> !states[j].justOne
    ensures NoJustOne(states[i]) && states[i].cache.tainted == {} && states[i].max.asked.Some?
  {
    if from < i {
      ListModeNeverTaints(w, states, actions, from, i - 1);
      var s, a := states[i - 1], actions[i - 1];
      if a.Advance? {
        JustOneArises(w, s, s.Pc(a.t), a.heard, a.level);
        assert GuardOf(s.Pc(a.t)) != Some(JustOne);
      }
      assert forall u :: states[i].Pc(u) == s.Pc(u) || (!a.Drop? && u == a.t);
    }
  }

  lemma JustOneArises(w: World, s: State, pc: Pc, heard: Interest, level: LevelFilter)
    requires GuardOf(pc) != Some(JustOne) && !s.justOne
    ensures GuardOf(Target(w, s, pc, heard, level)) != Some(JustOne)
  {
  }

  // ----- The linked list -----

  /** The first `fuel` callsites met when following `next` from `at`. */
  ghost function Follow(s: State, at: Option<Callsite>, fuel: nat): seq<Callsite>
    decreases fuel
  {
    if at.None? || fuel == 0 then [] else [at.value] + Follow(s, s.Next(at.value), fuel - 1)
  }

  function Reversed(cs: seq<Callsite>): seq<Callsite> {
    if cs == [] then [] else [cs[|cs| - 1]] + Reversed(cs[..|cs| - 1])
  }

  lemma {:induction false} FollowRunsBack(s: State, k: nat, fuel: nat)
    requires Chain(s) && k <= |s.links.pushed| && k <= fuel
    ensures Follow(s, Below(s.links.pushed, k), fuel) == Reversed(s.links.pushed[..k])
  {
    if k > 0 {
      assert LinkOk(s, k - 1);
      FollowRunsBack(s, k - 1, fuel - 1);
      assert s.links.pushed[..k][..k - 1] == s.links.pushed[..k - 1];
    }
  }

  /**
   * However many threads race: following `next` from `list_head` reaches null, after exactly the
   * callsites whose CAS succeeded, newest first, each once; every registered callsite is among them.
   */
  lemma ListHoldsEachPushOnce(w: World, states: seq<State>, actions: seq<Action>, i: nat, fuel: nat)
    requires Execution(w, states, actions) && i < |states| && |states[i].links.pushed| <= fuel
    ensures
      var s := states[i];
      && Follow(s, s.links.head, fuel) == Reversed(s.links.pushed)
      && (forall j, k :: 0 <= j < k < |s.links.pushed| ==> s.links.pushed[j] != s.links.pushed[k])
      && (forall c :: s.Reg(c) == Registered ==> c in s.links.pushed)
      && (forall c <- s.links.pushed :: s.Reg(c) != Unregistered)
  {
    InvHolds(w, states, actions, i);
    var s := states[i];
    FollowRunsBack(s, |s.links.pushed|, fuel);
    assert s.links.pushed[..|s.links.pushed|] == s.links.pushed;
  }

  /** The `assert_ne!` of `push_default` never fires. */
  lemma PushNeverMeetsItself(w: World, states: seq<State>, actions: seq<Action>, i: nat, t: Thread)
    requires Execution(w, states, actions) && i < |states| && states[i].Pc(t).PushLink?
    ensures states[i].links.head != Some(states[i].Pc(t).c)
  {
    InvHolds(w, states, actions, i);
    assert OwnerOk(states[i], t);
  }

  // ----- Traversals -----

  function WalkOf(pc: Pc): Option<Walk> {
    match pc
    case Ask(job, _, _, _, _) => if job.Everything? then Some(job.walk) else None
    case SetInterest(job, _, _, _) => if job.Everything? then Some(job.walk) else None
    case NextLoad(walk, _) => Some(walk)
    case FlagLoad(walk) => Some(walk)
    case DynLock(walk) => Some(walk)
    case DynUnlock(walk) => Some(walk)
    case SetMax(walk) => Some(walk)
    case Release(job) => if job.Everything? then Some(job.walk) else None
    case _ => None
  }

  /** Past the load of `has_locked_callsites`. */
  predicate FlagLoaded(pc: Pc) {
    pc.DynLock? || pc.DynUnlock? || pc.SetMax? || pc.Release? || (pc.Ask? && pc.c.Dyn?) || (pc.SetInterest? && pc.c.Dyn?)
  }

  /** A walk keeps the snapshots it took at its two loads. */
  ghost predicate WalkStep(s: State, pc: Pc, pc': Pc)
    requires WalkOf(pc').Some?
  {
    var walk' := WalkOf(pc').value;
    && (if pc.HeadLoad? then walk'.snap == |s.links.pushed|
        else WalkOf(pc).Some? && WalkOf(pc).value.snap == walk'.snap)
    && (FlagLoaded(pc') ==>
          if pc.FlagLoad? then walk'.dynSnap == s.dyns.vec
          else FlagLoaded(pc) && WalkOf(pc).Some? && WalkOf(pc).value.dynSnap == walk'.dynSnap)
  }

  lemma WalkMoves(w: World, s: State, pc: Pc, heard: Interest, level: LevelFilter)
    requires Chain(s) && WalkOk(w, s, pc) && (forall c <- s.dyns.vec :: c.Dyn?)
    requires WalkOf(Target(w, s, pc, heard, level)).Some?
    ensures WalkStep(s, pc, Target(w, s, pc, heard, level))
  {
    match pc
    case HeadLoad(_, _, _) => assert s.links.pushed != [] ==> LinkOk(s, |s.links.pushed| - 1);
    case NextLoad(walk, c) => NextInList(s, walk, c);
    case _ =>
  }

  /** A thread in a walk came there by a step of its own that keeps the snapshots, or was there already. */
  lemma WalkCameFrom(w: World, states: seq<State>, actions: seq<Action>, i: nat, t: Thread)
    requires Execution(w, states, actions) && i < |actions| && WalkOf(states[i + 1].Pc(t)).Some?
    ensures
      var pc, pc' := states[i].Pc(t), states[i + 1].Pc(t);
      pc' == pc || (actions[i].Advance? && actions[i].t == t && WalkStep(states[i], pc, pc'))
  {
    var s, a := states[i], actions[i];
    if a.Advance? && a.t == t {
      InvHolds(w, states, actions, i);
      assert WalkOk(w, s, s.Pc(t));
      WalkMoves(w, s, s.Pc(t), a.heard, a.level);
    }
  }

  /** Step `h` of thread `t` is the load of `list_head` of the walk that it is in up to state `i`. */
  ghost predicate HeadLoadOf(states: seq<State>, actions: seq<Action>, h: nat, i: nat, t: Thread)
    requires i < |states| == |actions| + 1
  {
    && h < i && states[h].Pc(t).HeadLoad? && actions[h].Advance? && actions[h].t == t
    && forall k :: h < k <= i ==> WalkOf(states[k].Pc(t)).Some?
  }

  /** Step `f` is the load of `has_locked_callsites` of the walk. */
  ghost predicate FlagLoadOf(states: seq<State>, actions: seq<Action>, f: nat, i: nat, t: Thread)
    requires i < |states| == |actions| + 1
  {
    && f < i && states[f].Pc(t).FlagLoad? && actions[f].Advance? && actions[f].t == t
    && forall k :: f < k <= i ==> FlagLoaded(states[k].Pc(t))
  }

  /** The moment at which a running walk loaded `list_head`. */
  lemma {:induction false} HeadOrigin(w: World, states: seq<State>, actions: seq<Action>, i: nat, t: Thread)
    returns (h: nat)
    requires Execution(w, states, actions) && i < |states| && WalkOf(states[i].Pc(t)).Some?
    ensures HeadLoadOf(states, actions, h, i, t)
    ensures |states[h].links.pushed| == WalkOf(states[i].Pc(t)).value.snap
  {
    assert i > 0;
    WalkCameFrom(w, states, actions, i - 1, t);
    if WalkOf(states[i - 1].Pc(t)).Some? {
      h := HeadOrigin(w, states, actions, i - 1, t);
      HeadLoadStays(states, actions, h, i, t);
    } else {
      h := i - 1;
    }
  }

  /** And the moment at which it loaded `has_locked_callsites`. */
  lemma {:induction false} FlagOrigin(w: World, states: seq<State>, actions: seq<Action>, h: nat, i: nat, t: Thread)
    returns (f: nat)
    requires Execution(w, states, actions) && i < |states| && HeadLoadOf(states, actions, h, i, t)
    requires FlagLoaded(states[i].Pc(t))
    ensures h < f && FlagLoadOf(states, actions, f, i, t)
    ensures states[f].dyns.vec == WalkOf(states[i].Pc(t)).value.dynSnap
  {
    assert WalkOf(states[i].Pc(t)).Some?;
    FlagCameFrom(w, states, actions, i - 1, t);
    if FlagLoaded(states[i - 1].Pc(t)) {
      HeadLoadEarlier(states, actions, h, i, t);
      f := FlagOrigin(w, states, actions, h, i - 1, t);
      FlagLoadStays(states, actions, f, i, t);
    } else {
      f := i - 1;
      FlagLoadNow(states, actions, h, i, t);
    }
  }

  lemma FlagLoadNow(states: seq<State>, actions: seq<Action>, h: nat, i: nat, t: Thread)
    requires 0 < i < |states| == |actions| + 1 && HeadLoadOf(states, actions, h, i, t)
    requires states[i - 1].Pc(t).FlagLoad? && actions[i - 1].Advance? && actions[i - 1].t == t && FlagLoaded(states[i].Pc(t))
    ensures h < i - 1 && FlagLoadOf(states, actions, i - 1, i, t)
  {
  }

  lemma FlagCameFrom(w: World, states: seq<State>, actions: seq<Action>, i: nat, t: Thread)
    requires Execution(w, states, actions) && i < |actions|
    requires WalkOf(states[i + 1].Pc(t)).Some? && FlagLoaded(states[i + 1].Pc(t))
    ensures
      var pc, snap := states[i].Pc(t), WalkOf(states[i + 1].Pc(t)).value.dynSnap;
      if FlagLoaded(pc) then WalkOf(pc).Some? && WalkOf(pc).value.dynSnap == snap
      else pc.FlagLoad? && actions[i].Advance? && actions[i].t == t && states[i].dyns.vec == snap
  {
    WalkCameFrom(w, states, actions, i, t);
  }

  lemma HeadLoadEarlier(states: seq<State>, actions: seq<Action>, h: nat, i: nat, t: Thread)
    requires 0 < i < |states| == |actions| + 1 && HeadLoadOf(states, actions, h, i, t)
    requires FlagLoaded(states[i - 1].Pc(t))
    ensures HeadLoadOf(states, actions, h, i - 1, t)
  {
  }

  /** The moments at which a running walk made its two loads. */
  lemma WalkOrigin(w: World, states: seq<State>, actions: seq<Action>, i: nat, t: Thread)
    returns (h: nat, f: nat)
    requires Execution(w, states, actions) && i < |states| && WalkOf(states[i].Pc(t)).Some?
    ensures HeadLoadOf(states, actions, h, i, t)
    ensures |states[h].links.pushed| == WalkOf(states[i].Pc(t)).value.snap
    ensures FlagLoaded(states[i].Pc(t)) ==>
      && h < f && FlagLoadOf(states, actions, f, i, t)
      && states[f].dyns.vec == WalkOf(states[i].Pc(t)).value.dynSnap
  {
    h := HeadOrigin(w, states, actions, i, t);
    f := 0;
    if FlagLoaded(states[i].Pc(t)) {
      f := FlagOrigin(w, states, actions, h, i, t);
    }
  }

  lemma HeadLoadStays(states: seq<State>, actions: seq<Action>, h: nat, i: nat, t: Thread)
    requires 0 < i < |states| == |actions| + 1 && HeadLoadOf(states, actions, h, i - 1, t)
    requires WalkOf(states[i].Pc(t)).Some?
    ensures HeadLoadOf(states, actions, h, i, t)
  {
  }

  lemma FlagLoadStays(states: seq<State>, actions: seq<Action>, f: nat, i: nat, t: Thread)
    requires 0 < i < |states| == |actions| + 1 && FlagLoadOf(states, actions, f, i - 1, t)
    requires FlagLoaded(states[i].Pc(t))
    ensures FlagLoadOf(states, actions, f, i, t)
  {
  }

  lemma {:induction false} PushedGrows(w: World, states: seq<State>, actions: seq<Action>, i: nat, j: nat)
    requires Execution(w, states, actions) && i <= j < |states|
    ensures states[i].links.pushed <= states[j].links.pushed
  {
    if i < j {
      PushedGrows(w, states, actions, i, j - 1);
    }
  }

  /**
   * A `for_each` that has ended visited every callsite published before it loaded `list_head`, each
   * of the linked ones once, and every locked callsite whose push was complete when it loaded the
   * flag; `h` and `f` are the steps at which this very traversal made these loads.
   */
  lemma ForEachIsComplete(w: World, states: seq<State>, actions: seq<Action>, i: nat, t: Thread)
    returns (h: nat, f: nat)
    requires Execution(w, states, actions) && i < |states| && states[i].Pc(t).SetMax?
    ensures HeadLoadOf(states, actions, h, i, t) && h < f && FlagLoadOf(states, actions, f, i, t)
    ensures
      var walk := states[i].Pc(t).walk;
      && walk.snap <= |walk.visited|
      && (forall c <- states[h].links.pushed :: c in walk.visited[..walk.snap])
      && (forall c <- walk.visited[..walk.snap] :: c in states[h].links.pushed)
      && (forall j, k :: 0 <= j < k < walk.snap ==> walk.visited[..walk.snap][j] != walk.visited[..walk.snap][k])
      && (forall c <- states[f].dyns.vec :: c in walk.visited)
  {
    h, f := WalkOrigin(w, states, actions, i, t);
    InvHolds(w, states, actions, i);
    PushedGrows(w, states, actions, h, i);
    var s := states[i];
    var walk := s.Pc(t).walk;
    assert WalkOk(w, s, s.Pc(t));
    var seen := walk.visited[..walk.snap];
    SeenInReverse(states[h].links.pushed, s, walk, seen);
    assert forall c <- states[f].dyns.vec :: c in walk.visited[walk.snap..];
  }

  lemma SeenInReverse(found: seq<Callsite>, s: State, walk: Walk, seen: seq<Callsite>)
    requires Chain(s) && ListPart(s, walk) && walk.snap <= |walk.visited|
    requires found <= s.links.pushed && |found| == walk.snap && seen == walk.visited[..walk.snap]
    ensures (forall c <- found :: c in seen) && (forall c <- seen :: c in found)
    ensures forall j, k :: 0 <= j < k < walk.snap ==> seen[j] != seen[k]
  {
    forall i | 0 <= i < |found| ensures found[i] in seen {
      assert seen[walk.snap - 1 - i] == found[i];
    }
    forall i | 0 <= i < |seen| ensures seen[i] in found {
      assert found[walk.snap - 1 - i] == seen[i];
    }
    forall j, k | 0 <= j < k < walk.snap ensures seen[j] != seen[k] {
      assert s.links.pushed[walk.snap - 1 - k] != s.links.pushed[walk.snap - 1 - j];
    }
  }

  /** While on the linked list a walk is always at one of the callsites it found, so it ends. */
  lemma ListWalkIsBounded(w: World, states: seq<State>, actions: seq<Action>, i: nat, t: Thread)
    requires Execution(w, states, actions) && i < |states|
    requires states[i].Pc(t).Ask? && states[i].Pc(t).job.Everything? && states[i].Pc(t).c.Default?
    ensures
      var walk := states[i].Pc(t).job.walk;
      |walk.visited| < walk.snap <= |states[i].links.pushed| && states[i].Pc(t).c !in walk.visited
  {
    InvHolds(w, states, actions, i);
    var s := states[i];
    assert WalkOk(w, s, s.Pc(t));
    var walk, c := s.Pc(t).job.walk, s.Pc(t).c;
    forall k | 0 <= k < |walk.visited| ensures walk.visited[k] != c {
      var i, j := walk.snap - 1 - |walk.visited|, walk.snap - 1 - k;
      assert 0 <= i < j && s.links.pushed[i] != s.links.pushed[j];
    }
  }
}
