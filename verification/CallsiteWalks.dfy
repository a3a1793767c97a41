/**
 * A traversal ends: while the other threads pause, its own steps lead from the load of `list_head`,
 * over the linked list and the locked vector, to the end of `for_each`.
 */
module CallsiteWalks {
  import opened Options
  import opened Interests
  import opened LevelFilters
  import opened CallsiteRegistry
  import opened CallsiteProofs
  import opened CallsiteTheorems
  import opened CallsiteModes

  /** In `for_each`, from the load of `list_head` to its end. */
  predicate Walking(pc: Pc) {
    pc.HeadLoad? || (WalkOf(pc).Some? && !pc.Release?)
  }

  /** What the length of a traversal depends on. */
  datatype Sizes = Sizes(linked: nat, locked: nat, dispatchers: nat)

  function SizesOf(s: State): Sizes {
    Sizes(|s.links.pushed|, |s.dyns.vec|, |s.disp.vec|)
  }

  /** The callsites still to visit. */
  function ToVisit(z: Sizes, pc: Pc): int {
    match pc
    case HeadLoad(_, _, _) => z.linked + z.locked
    case SetMax(_) => 0
    case _ => if WalkOf(pc).Some? then WalkOf(pc).value.snap + z.locked - |WalkOf(pc).value.visited| else 0
  }

  /** The steps up to the next visit, by kind and then within the questions to the dispatchers. */
  function Steps(z: Sizes, pc: Pc): (nat, nat) {
    match pc
    case HeadLoad(_, _, _) => (7, 0)
    case NextLoad(_, _) => (6, 0)
    case FlagLoad(_) => (5, 0)
    case DynLock(_) => (4, 0)
    case Ask(_, _, i, _, _) => (3, if i <= z.dispatchers then z.dispatchers - i else 0)
    case SetInterest(_, _, _, _) => (2, 0)
    case DynUnlock(_) => (1, 0)
    case _ => (0, 0)
  }

  ghost predicate Fewer(z: Sizes, pc: Pc, pc': Pc) {
    var (a, b), (a', b') := Steps(z, pc), Steps(z, pc');
    && 0 <= ToVisit(z, pc') <= ToVisit(z, pc)
    && (ToVisit(z, pc') == ToVisit(z, pc) ==> a' < a || (a' == a && b' < b))
  }

  /** Nobody else is in the way. */
  ghost predicate Free(s: State, t: Thread) {
    s.dyns.owner == None || s.dyns.owner == Some(t)
  }

  lemma VisitDynIsFewer(s: State, walk: Walk, pc: Pc)
    requires (forall c <- s.dyns.vec :: c.Dyn?) && 0 <= |walk.visited| - walk.snap <= |s.dyns.vec|
    ensures
      var pc' := VisitDyn(s, walk);
      && Walking(pc') && (pc'.Ask? || pc'.DynUnlock?)
      && ToVisit(SizesOf(s), pc') == walk.snap + |s.dyns.vec| - |walk.visited|
  {
  }

  lemma WalkTargetIsFewer(w: World, s: State, pc: Pc, heard: Interest, level: LevelFilter)
    requires Chain(s) && WalkOk(w, s, pc) && AskOk(w, s, pc) && (forall c <- s.dyns.vec :: c.Dyn?)
    requires (s.dyns.vec != [] ==> s.dyns.flag) && Walking(pc) && !pc.SetMax?
    ensures
      var pc' := Target(w, s, pc, heard, level);
      Walking(pc') && Fewer(SizesOf(s), pc, pc')
  {
    if pc.HeadLoad? || pc.NextLoad? || pc.SetInterest? || pc.DynLock? {
      AtVisitIsFewer(w, s, pc, heard, level);
    } else {
      ElsewhereIsFewer(w, s, pc, heard, level);
    }
  }

  lemma ElsewhereIsFewer(w: World, s: State, pc: Pc, heard: Interest, level: LevelFilter)
    requires pc.Ask? || pc.FlagLoad? || pc.DynUnlock?
    requires WalkOk(w, s, pc) && AskOk(w, s, pc) && Walking(pc) && (s.dyns.vec != [] ==> s.dyns.flag)
    ensures
      var pc' := Target(w, s, pc, heard, level);
      Walking(pc') && Fewer(SizesOf(s), pc, pc')
  {
  }

  lemma AtVisitIsFewer(w: World, s: State, pc: Pc, heard: Interest, level: LevelFilter)
    requires pc.HeadLoad? || pc.NextLoad? || pc.SetInterest? || pc.DynLock?
    requires Chain(s) && WalkOk(w, s, pc) && (forall c <- s.dyns.vec :: c.Dyn?) && Walking(pc)
    ensures
      var pc' := Target(w, s, pc, heard, level);
      Walking(pc') && Fewer(SizesOf(s), pc, pc')
  {
    match pc
    case HeadLoad(g, asked, max) =>
      assert s.links.pushed != [] ==> LinkOk(s, |s.links.pushed| - 1);
      VisitIsFewer(s, pc, Walk(g, asked, max, |s.links.pushed|, [], []), s.links.head);
    case NextLoad(walk, c) =>
      NextInList(s, walk, c);
      VisitIsFewer(s, pc, walk, s.Next(c));
    case SetInterest(_, _, _, _) => AfterSetIsFewer(w, s, pc);
    case DynLock(walk) => VisitDynIsFewer(s, walk, pc);
  }

  lemma VisitIsFewer(s: State, pc: Pc, walk: Walk, at: Option<Callsite>)
    requires pc.HeadLoad? || pc.NextLoad?
    requires ToVisit(SizesOf(s), pc) == walk.snap + |s.dyns.vec| - |walk.visited| && |walk.visited| <= walk.snap
    ensures var pc' := Visit(walk, at); Walking(pc') && Fewer(SizesOf(s), pc, pc')
  {
  }

  lemma AfterSetIsFewer(w: World, s: State, pc: Pc)
    requires pc.SetInterest? && pc.job.Everything? && WalkAt(s, pc.job.walk, pc.c) && (forall c <- s.dyns.vec :: c.Dyn?)
    ensures var pc' := AfterSet(s, pc.job, pc.c); Walking(pc') && Fewer(SizesOf(s), pc, pc')
  {
    if pc.c.Dyn? {
      VisitDynIsFewer(s, pc.job.walk.(visited := pc.job.walk.visited + [pc.c]), pc);
    }
  }

  /** A step of a traversal moves nothing that its length depends on. */
  lemma OnlyAWalk(w: World, s: State, t: Thread, heard: Interest, level: LevelFilter)
    requires Inv(w, s) && Walking(s.Pc(t)) && !s.Pc(t).SetMax?
    ensures
      var s' := Move(w, s, t, heard, level);
      && s'.disp.vec == s.disp.vec && s'.dyns.vec == s.dyns.vec && s'.links == s.links
      && (s'.dyns.owner == s.dyns.owner || s'.dyns.owner == None || s'.dyns.owner == Some(t))
  {
  }

  /** The thread can take its next step, and the traversal goes on. */
  ghost predicate Ready(w: World, s: State, t: Thread) {
    Inv(w, s) && Walking(s.Pc(t)) && Free(s, t)
  }

  lemma WalkIsEnabled(w: World, s: State, t: Thread, h: Heard)
    requires Locks(s) && Walking(s.Pc(t)) && Free(s, t)
    ensures Enabled(s, Advance(t, h.interest, h.level))
  {
    assert s.dyns.owner == Some(t) ==> HoldsDyn(s.Pc(t));
  }

  lemma WalkGoesOn(w: World, s: State, t: Thread, h: Heard)
    requires Inv(w, s) && Walking(s.Pc(t)) && !s.Pc(t).SetMax?
    ensures
      var pc' := Target(w, s, s.Pc(t), h.interest, h.level);
      Walking(pc') && Fewer(SizesOf(s), s.Pc(t), pc')
  {
    assert WalkOk(w, s, s.Pc(t)) && AskOk(w, s, s.Pc(t));
    WalkTargetIsFewer(w, s, s.Pc(t), h.interest, h.level);
  }

  lemma OneStepFewer(w: World, s: State, t: Thread, h: Heard)
    requires Ready(w, s, t) && !s.Pc(t).SetMax?
    ensures Enabled(s, Advance(t, h.interest, h.level))
    ensures
      var s' := Move(w, s, t, h.interest, h.level);
      Ready(w, s', t) && SizesOf(s') == SizesOf(s) && Fewer(SizesOf(s), s.Pc(t), s'.Pc(t))
  {
    var s' := Move(w, s, t, h.interest, h.level);
    var pc' := Target(w, s, s.Pc(t), h.interest, h.level);
    assert s'.Pc(t) == pc';
    WalkIsEnabled(w, s, t, h);
    WalkGoesOn(w, s, t, h);
    OnlyAWalk(w, s, t, h.interest, h.level);
    MoveIsAStep(w, s, t, h.interest, h.level);
    MoveKeepsInv(w, s, s', t);
  }

  /** The own steps of a thread in a traversal lead to its end, unless the locked vector is held by
      another thread; whatever its default answers. */
  lemma {:induction false} WalkEnds(w: World, s: State, t: Thread, h: Heard) returns (heard: seq<Heard>, s': State)
    requires Ready(w, s, t)
    ensures OwnRun(w, s, t, heard, s') && s'.Pc(t).SetMax? && forall x <- heard :: x == h
    decreases ToVisit(SizesOf(s), s.Pc(t)), Steps(SizesOf(s), s.Pc(t)).0, Steps(SizesOf(s), s.Pc(t)).1
  {
    if s.Pc(t).SetMax? {
      heard, s' := [], s;
    } else {
      OneStepFewer(w, s, t, h);
      heard, s' := WalkEnds(w, Move(w, s, t, h.interest, h.level), t, h);
      heard := OneMoreOwnStep(w, s, t, h, heard, s');
    }
  }

  lemma OneMoreOwnStep(w: World, s: State, t: Thread, h: Heard, rest: seq<Heard>, s': State) returns (heard: seq<Heard>)
    requires Enabled(s, Advance(t, h.interest, h.level))
    requires OwnRun(w, Move(w, s, t, h.interest, h.level), t, rest, s') && forall x <- rest :: x == h
    ensures OwnRun(w, s, t, heard, s') && forall x <- heard :: x == h
  {
    heard := [h] + rest;
    assert heard[1..] == rest;
  }

  /** How far a rebuild is from its traversal. */
  function ToWalk(z: Sizes, pc: Pc): nat {
    match pc
    case AllRebuilder => z.dispatchers + 3
    case AllLock => z.dispatchers + 2
    case MaxAsk(_, i, _, _) => if i <= z.dispatchers then z.dispatchers - i + 1 else 1
    case _ => 0
  }

  /** A full rebuild gets to its traversal: the thread's own steps take it over the maximum level to the
      load of `list_head`, unless a `register_dispatch` is in the way. */
  lemma {:induction false} RebuildGetsToWalk(w: World, s: State, t: Thread, h: Heard) returns (heard: seq<Heard>, s': State)
    requires s.Pc(t).AllRebuilder? || s.Pc(t).AllLock? || s.Pc(t).MaxAsk? || s.Pc(t).HeadLoad?
    requires s.Pc(t).AllRebuilder? || s.Pc(t).AllLock? ==> s.disp.writer == None
    ensures OwnRun(w, s, t, heard, s') && s'.Pc(t).HeadLoad? && forall x <- heard :: x == h
    decreases ToWalk(SizesOf(s), s.Pc(t))
  {
    if s.Pc(t).HeadLoad? {
      heard, s' := [], s;
    } else {
      heard, s' := RebuildGetsToWalk(w, Move(w, s, t, h.interest, h.level), t, h);
      heard := OneMoreOwnStep(w, s, t, h, heard, s');
    }
  }

  /** So every traversal of every execution can be completed by its own thread, through the list and
      the locked vector. */
  lemma ForEachEnds(w: World, states: seq<State>, actions: seq<Action>, i: nat, t: Thread, h: Heard)
    returns (heard: seq<Heard>, s': State)
    requires Execution(w, states, actions) && i < |states| && Walking(states[i].Pc(t)) && Free(states[i], t)
    ensures OwnRun(w, states[i], t, heard, s') && s'.Pc(t).SetMax?
  {
    InvHolds(w, states, actions, i);
    heard, s' := WalkEnds(w, states[i], t, h);
  }
}
