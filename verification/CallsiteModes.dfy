/**
 * Exactly when a registration that is about to ask the subscribers must end with a sound cached
 * interest: by its own steps, if the other threads pause and the thread's current default may be
 * any dispatcher there is, or none.
 */
module CallsiteModes {
  import opened Options
  import opened Interests
  import opened LevelFilters
  import opened CallsiteRegistry
  import opened CallsiteTheorems
  import opened CallsiteRace

  /** What a thread's current default answers in one step, should it be asked. */
  datatype Heard = Heard(interest: Interest, level: LevelFilter)

  /** Steps of thread `t` alone lead from `s` to `s'`. */
  ghost predicate OwnRun(w: World, s: State, t: Thread, heard: seq<Heard>, s': State)
    decreases heard
  {
    if heard == [] then s' == s
    else
      && Enabled(s, Advance(t, heard[0].interest, heard[0].level))
      && OwnRun(w, Move(w, s, t, heard[0].interest, heard[0].level), t, heard[1..], s')
  }

  /** A default can answer only what it is: `NONE` is never interested, and every other dispatcher
      was registered before it could become a default, and lives while it is one. */
  ghost predicate Plausible(w: World, s: State, c: Callsite, h: Heard) {
    h.interest == Never || exists d :: d in s.live && d in s.disp.registered && h.interest == w.answer(d, c)
  }

  /** Whatever the default is, the call that `t` is in ends with a sound interest for `c`. */
  ghost predicate EndsSound(w: World, s: State, t: Thread, c: Callsite) {
    forall heard, s' ::
      OwnRun(w, s, t, heard, s') && s'.Pc(t).Idle? && (forall h <- heard :: Plausible(w, s, c, h)) ==> Sound(w, s', c)
  }

  // ----- The way through a registration -----

  /** Thread `t` is on its way from `rebuilder()` to the end of the registration of `c`: with `list`
      by way of the list of dispatchers, otherwise by asking its default, which says `said`. */
  ghost predicate OnItsWay(s: State, t: Thread, c: Callsite, list: bool, said: Interest) {
    && s.disp.writer == None
    && match s.Pc(t)
       case OneRebuilder(x) => x == c && s.justOne == !list
       case OneLock(x) => x == c && list
       case Ask(job, x, _, _, _) => x == c && job == TheJob(c, list)
       case SetInterest(job, x, _, value) => x == c && job == TheJob(c, list) && (list || value == said)
       case Release(job) => list && job == TheJob(c, list) && Stored(s, c, list, said)
       case Finish(x) => x == c && Stored(s, c, list, said)
       case Idle => Stored(s, c, list, said)
       case _ => false
  }

  function TheJob(c: Callsite, list: bool): Job {
    Register(c, if list then Read else JustOne)
  }

  predicate Stored(s: State, c: Callsite, list: bool, said: Interest) {
    c in s.cache.interest && if list then c !in s.cache.tainted else s.cache.interest[c] == said
  }

  lemma StaysOnItsWay(w: World, s: State, t: Thread, c: Callsite, list: bool, said: Interest, h: Heard)
    requires OnItsWay(s, t, c, list, said) && Enabled(s, Advance(t, h.interest, h.level)) && (list || h.interest == said)
    ensures
      var s' := Move(w, s, t, h.interest, h.level);
      OnItsWay(s', t, c, list, said) && s'.live == s.live && s'.disp.registered == s.disp.registered
  {
  }

  lemma {:induction false} EndsOnItsWay(w: World, s: State, t: Thread, c: Callsite, list: bool, said: Interest, heard: seq<Heard>, s': State)
    requires Reachable(w, s) && OnItsWay(s, t, c, list, said) && OwnRun(w, s, t, heard, s')
    requires list || forall h <- heard :: h.interest == said
    ensures Reachable(w, s') && OnItsWay(s', t, c, list, said)
    ensures s'.live == s.live && s'.disp.registered == s.disp.registered
    decreases heard
  {
    if heard != [] {
      var h := heard[0];
      StaysOnItsWay(w, s, t, c, list, said, h);
      var next := Reach(w, s, Advance(t, h.interest, h.level));
      EndsOnItsWay(w, next, t, c, list, said, heard[1..], s');
    }
  }

  /** The steps that are left, at most. */
  function Left(s: State, pc: Pc): (nat, nat) {
    match pc
    case OneRebuilder(_) => (5, 0)
    case OneLock(_) => (4, 0)
    case Ask(_, _, i, _, _) => (3, if i <= |s.disp.vec| then |s.disp.vec| - i else 0)
    case SetInterest(_, _, _, _) => (2, 0)
    case Release(_) => (1, 1)
    case Finish(_) => (1, 0)
    case _ => (0, 0)
  }

  lemma OneStepLess(w: World, s: State, t: Thread, c: Callsite, list: bool, said: Interest, h: Heard)
    requires OnItsWay(s, t, c, list, said) && !s.Pc(t).Idle?
    ensures Enabled(s, Advance(t, h.interest, h.level))
    ensures
      var s' := Move(w, s, t, h.interest, h.level);
      var (a, b), (a', b') := Left(s, s.Pc(t)), Left(s', s'.Pc(t));
      a' < a || (a' == a && b' < b)
  {
  }

  /** Its own steps bring a registration to its end, whatever its default answers. */
  lemma {:induction false} RegistrationEnds(w: World, s: State, t: Thread, c: Callsite, list: bool, h: Heard)
    returns (heard: seq<Heard>, s': State)
    requires OnItsWay(s, t, c, list, h.interest)
    ensures OwnRun(w, s, t, heard, s') && s'.Pc(t).Idle? && forall x <- heard :: x == h
    decreases Left(s, s.Pc(t)).0, Left(s, s.Pc(t)).1
  {
    if s.Pc(t).Idle? {
      heard, s' := [], s;
    } else {
      OneStepLess(w, s, t, c, list, h.interest, h);
      StaysOnItsWay(w, s, t, c, list, h.interest, h);
      heard, s' := RegistrationEnds(w, Move(w, s, t, h.interest, h.level), t, c, list, h);
      assert ([h] + heard)[1..] == heard;
      heard := [h] + heard;
    }
  }

  // ----- Both halves -----

  /** With `has_just_one` set and someone alive and interested, a thread whose default is `NONE` gets it wrong. */
  lemma JustOneCanEndUnsound(w: World, s: State, t: Thread, c: Callsite, d: Dispatch)
    requires s.Pc(t) == OneRebuilder(c) && s.justOne && d in s.live && d in s.disp.registered && w.answer(d, c) != Never
    ensures !EndsSound(w, s, t, c)
  {
    var h := Heard(Never, Off);
    var s1, s2 := DefaultIsAsked(w, s, t, c, h);
    var s3, s4 := AnswerIsStored(w, s2, t, c, h);
    FourSteps(w, s, t, h, s1, s2, s3, s4);
    assert forall x <- [h, h, h, h] :: Plausible(w, s, c, x);
    assert !Sound(w, s4, c);
  }

  lemma DefaultIsAsked(w: World, s: State, t: Thread, c: Callsite, h: Heard) returns (s1: State, s2: State)
    requires s.Pc(t) == OneRebuilder(c) && s.justOne
    ensures Enabled(s, Advance(t, h.interest, h.level)) && s1 == Move(w, s, t, h.interest, h.level)
    ensures Enabled(s1, Advance(t, h.interest, h.level)) && s2 == Move(w, s1, t, h.interest, h.level)
    ensures s2.Pc(t) == SetInterest(Register(c, JustOne), c, [], h.interest)
    ensures s2.live == s.live && s2.disp == s.disp
  {
    s1 := Move(w, s, t, h.interest, h.level);
    assert s1.Pc(t) == Ask(Register(c, JustOne), c, 0, [], None);
    s2 := Move(w, s1, t, h.interest, h.level);
  }

  lemma AnswerIsStored(w: World, s: State, t: Thread, c: Callsite, h: Heard) returns (s1: State, s2: State)
    requires s.Pc(t) == SetInterest(Register(c, JustOne), c, [], h.interest)
    ensures Enabled(s, Advance(t, h.interest, h.level)) && s1 == Move(w, s, t, h.interest, h.level)
    ensures Enabled(s1, Advance(t, h.interest, h.level)) && s2 == Move(w, s1, t, h.interest, h.level)
    ensures s2.Pc(t).Idle? && c in s2.cache.interest && s2.cache.interest[c] == h.interest
    ensures s2.live == s.live && s2.disp == s.disp
  {
    s1 := Move(w, s, t, h.interest, h.level);
    assert s1.Pc(t) == Finish(c);
    s2 := Move(w, s1, t, h.interest, h.level);
  }

  lemma FourSteps(w: World, s: State, t: Thread, h: Heard, s1: State, s2: State, s3: State, s4: State)
    requires Enabled(s, Advance(t, h.interest, h.level)) && s1 == Move(w, s, t, h.interest, h.level)
    requires Enabled(s1, Advance(t, h.interest, h.level)) && s2 == Move(w, s1, t, h.interest, h.level)
    requires Enabled(s2, Advance(t, h.interest, h.level)) && s3 == Move(w, s2, t, h.interest, h.level)
    requires Enabled(s3, Advance(t, h.interest, h.level)) && s4 == Move(w, s3, t, h.interest, h.level)
    ensures OwnRun(w, s, t, [h, h, h, h], s4)
  {
    assert [h][1..] == [] && [h, h][1..] == [h] && [h, h, h][1..] == [h, h] && [h, h, h, h][1..] == [h, h, h];
    assert OwnRun(w, s3, t, [h], s4);
    assert OwnRun(w, s2, t, [h, h], s4);
    assert OwnRun(w, s1, t, [h, h, h], s4);
  }

  /**
   * From any reachable state in which a registration is about to call `rebuilder()`, its own steps
   * are sure to end with a sound cached interest, whatever the thread's default, exactly if
   * `has_just_one` is not set, or no registered dispatcher that is alive has any interest.
   */
  lemma RegistrationEndsSoundIff(w: World, s: State, t: Thread, c: Callsite)
    requires Reachable(w, s) && s.Pc(t) == OneRebuilder(c) && s.disp.writer == None
    ensures EndsSound(w, s, t, c) <==>
      !s.justOne || forall d :: d in s.live && d in s.disp.registered ==> w.answer(d, c) == Never
  {
    if d :| d in s.live && d in s.disp.registered && w.answer(d, c) != Never && s.justOne {
      JustOneCanEndUnsound(w, s, t, c, d);
    } else {
      forall heard, s' | OwnRun(w, s, t, heard, s') && s'.Pc(t).Idle? && (forall h <- heard :: Plausible(w, s, c, h))
        ensures Sound(w, s', c)
      {
        EndsOnItsWay(w, s, t, c, !s.justOne, Never, heard, s');
        if !s.justOne {
          var states, actions :| Execution(w, states, actions) && states[|actions|] == s';
          InterestCacheIsSound(w, states, actions, |actions|, c);
        }
      }
    }
  }
}
