/**
 * The exemption in `InterestCacheIsSound` is real: an execution in which a callsite finishes its
 * registration with a cached `Never` although a registered dispatcher is always interested in it.
 * The registering thread finds `has_just_one` set, asks its own default, and stores the answer
 * after a second dispatcher has been registered and has rebuilt the cache.
 */
module CallsiteRace {
  import opened Options
  import opened Interests
  import opened LevelFilters
  import opened CallsiteRegistry
  import opened CallsiteProofs
  import opened CallsiteTheorems

  ghost predicate Reachable(w: World, s: State) {
    exists states, actions :: Execution(w, states, actions) && states[|actions|] == s
  }

  lemma Reach(w: World, s: State, a: Action) returns (s': State)
    requires Reachable(w, s) && Enabled(s, a)
    ensures s' == Perform(w, s, a) && Reachable(w, s')
  {
    s' := Perform(w, s, a);
    var states, actions :| Execution(w, states, actions) && states[|actions|] == s;
    assert Execution(w, states + [s'], actions + [a]);
    assert (states + [s'])[|actions + [a]|] == s';
  }

  /** One step of thread `t`, to the given state. */
  lemma Go(w: World, s: State, t: Thread, s': State)
    requires Reachable(w, s) && Enabled(s, Advance(t, Never, Off)) && s' == Move(w, s, t, Never, Off)
    ensures Reachable(w, s')
  {
    var _ := Reach(w, s, Advance(t, Never, Off));
  }

  /** The one dispatcher is always interested; before it exists, the default is not. */
  const W: World := World((d, c) => Always, d => None)

  const C: Callsite := Default(7)

  /** No locked callsites and no second dispatcher are involved. */
  function At(links: Links, reg: map<Callsite, Registration>, cache: Cache, disp: Dispatchers, max: MaxLevel,
              live: set<Dispatch>, threads: map<Thread, Pc>): State {
    State(links, reg, cache, Dyns(false, None, []), true, disp, max, live, threads)
  }

  const Empty: Cache := Cache(map[], map[], {})
  const Linked: Links := Links(Some(C), map[C := None], [C])
  const NoLevel: MaxLevel := MaxLevel(OFF_USIZE, Some([]))
  const Stalled: Pc := SetInterest(Register(C, JustOne), C, [], Never)
  const Visiting: Walk := Walk(Write, [0], UpTo(Trace), 1, [], [])

  const NoDispatchers: Dispatchers := Dispatchers({}, None, [], {})

  /** Thread 2 wins the registration of the callsite. */
  lemma ThreadTwoBegins()
    ensures Reachable(W, At(Links(None, map[], []), map[C := Registering], Empty, NoDispatchers, NoLevel, {},
                            map[2 := PushLoad(C)]))
  {
    var s0 := At(Links(None, map[], []), map[], Empty, NoDispatchers, NoLevel, {}, map[]);
    var none: seq<Action> := [];
    assert Execution(W, [s0], none) && [s0][|none|] == s0;
    var s1 := Reach(W, s0, Begin(2, RegisterDefault(C)));
    Go(W, s1, 2, s1.(regs := map[C := Registering], threads := map[2 := PushLoad(C)]));
  }

  /** It goes on to its compare-exchange on `list_head`. */
  lemma ThreadTwoLinks()
    ensures Reachable(W, At(Links(None, map[C := None], []), map[C := Registering], Empty, NoDispatchers,
                            NoLevel, {}, map[2 := PushSwap(C, None)]))
  {
    ThreadTwoBegins();
    var s2 := At(Links(None, map[], []), map[C := Registering], Empty, NoDispatchers, NoLevel, {}, map[2 := PushLoad(C)]);
    var s3 := s2.(threads := map[2 := PushLink(C, None)]);
    Go(W, s2, 2, s3);
    Go(W, s3, 2, s3.(links := Links(None, map[C := None], []), threads := map[2 := PushSwap(C, None)]));
  }

  /** It finds `has_just_one` set, asks its default, and stalls before storing the answer. */
  lemma ThreadTwoStalls()
    ensures Reachable(W, At(Linked, map[C := Registering], Empty, NoDispatchers, NoLevel, {}, map[2 := Stalled]))
  {
    ThreadTwoLinks();
    var s4 := At(Links(None, map[C := None], []), map[C := Registering], Empty, NoDispatchers,
                 NoLevel, {}, map[2 := PushSwap(C, None)]);
    var s5 := s4.(links := Linked, threads := map[2 := OneRebuilder(C)]);
    Go(W, s4, 2, s5);
    var s6 := s5.(threads := map[2 := Ask(Register(C, JustOne), C, 0, [], None)]);
    Go(W, s5, 2, s6);
    Go(W, s6, 2, s6.(threads := map[2 := Stalled]));
  }

  /** Thread 1 begins to register the dispatcher: it takes the write lock ... */
  lemma ThreadOneLocks()
    ensures Reachable(W, At(Linked, map[C := Registering], Empty, Dispatchers({}, Some(1), [], {}), NoLevel, {0},
                            map[2 := Stalled, 1 := Retain(0, 0)]))
  {
    ThreadTwoStalls();
    var s7 := At(Linked, map[C := Registering], Empty, NoDispatchers, NoLevel, {}, map[2 := Stalled]);
    var s8 := Reach(W, s7, Begin(1, NewDispatch(0)));
    Go(W, s8, 1, s8.(disp := Dispatchers({}, Some(1), [], {}), threads := map[2 := Stalled, 1 := Retain(0, 0)]));
  }

  /** ... and pushes it. */
  lemma ThreadOneRegisters()
    ensures Reachable(W, At(Linked, map[C := Registering], Empty, Dispatchers({}, Some(1), [0], {0}), NoLevel, {0},
                            map[2 := Stalled, 1 := StoreJustOne]))
  {
    ThreadOneLocks();
    var s9 := At(Linked, map[C := Registering], Empty, Dispatchers({}, Some(1), [], {}), NoLevel, {0},
                 map[2 := Stalled, 1 := Retain(0, 0)]);
    Go(W, s9, 1, s9.(disp := Dispatchers({}, Some(1), [0], {0}), threads := map[2 := Stalled, 1 := StoreJustOne]));
  }

  lemma ThreadOneStoresFlag()
    ensures Reachable(W, At(Linked, map[C := Registering], Empty, Dispatchers({}, Some(1), [0], {0}), NoLevel, {0},
                            map[2 := Stalled, 1 := MaxAsk(Write, 0, [], Off)]))
  {
    ThreadOneRegisters();
    var s10 := At(Linked, map[C := Registering], Empty, Dispatchers({}, Some(1), [0], {0}), NoLevel, {0},
                  map[2 := Stalled, 1 := StoreJustOne]);
    Go(W, s10, 1, s10.(threads := map[2 := Stalled, 1 := MaxAsk(Write, 0, [], Off)]));
  }

  lemma ThreadOneAsksLevel()
    ensures Reachable(W, At(Linked, map[C := Registering], Empty, Dispatchers({}, Some(1), [0], {0}), NoLevel, {0},
                            map[2 := Stalled, 1 := HeadLoad(Write, [0], UpTo(Trace))]))
  {
    ThreadOneStoresFlag();
    var s11 := At(Linked, map[C := Registering], Empty, Dispatchers({}, Some(1), [0], {0}), NoLevel, {0},
                  map[2 := Stalled, 1 := MaxAsk(Write, 0, [], Off)]);
    var s12 := s11.(threads := map[2 := Stalled, 1 := MaxAsk(Write, 1, [0], UpTo(Trace))]);
    var none: seq<Dispatch> := [];
    assert none + [0] == [0];
    Go(W, s11, 1, s12);
    Go(W, s12, 1, s12.(threads := map[2 := Stalled, 1 := HeadLoad(Write, [0], UpTo(Trace))]));
  }

  lemma ThreadOneAsksInterest()
    ensures Reachable(W, At(Linked, map[C := Registering], Empty, Dispatchers({}, Some(1), [0], {0}), NoLevel, {0},
                            map[2 := Stalled, 1 := SetInterest(Everything(Visiting), C, [0], Always)]))
  {
    ThreadOneAsksLevel();
    var s13 := At(Linked, map[C := Registering], Empty, Dispatchers({}, Some(1), [0], {0}), NoLevel, {0},
                  map[2 := Stalled, 1 := HeadLoad(Write, [0], UpTo(Trace))]);
    var s14 := s13.(threads := map[2 := Stalled, 1 := Ask(Everything(Visiting), C, 0, [], None)]);
    Go(W, s13, 1, s14);
    var s15 := s14.(threads := map[2 := Stalled, 1 := Ask(Everything(Visiting), C, 1, [0], Some(Always))]);
    var none: seq<Dispatch> := [];
    assert none + [0] == [0];
    Go(W, s14, 1, s15);
    Go(W, s15, 1, s15.(threads := map[2 := Stalled, 1 := SetInterest(Everything(Visiting), C, [0], Always)]));
  }

  const Visited: Walk := Walk(Write, [0], UpTo(Trace), 1, [C], [])

  /** Its rebuild caches `Always` ... */
  lemma ThreadOneStores()
    ensures Reachable(W, At(Linked, map[C := Registering], Cache(map[C := Always], map[C := [0]], {}),
                            Dispatchers({}, Some(1), [0], {0}), NoLevel, {0}, map[2 := Stalled, 1 := NextLoad(Visited, C)]))
  {
    ThreadOneAsksInterest();
    var s16 := At(Linked, map[C := Registering], Empty, Dispatchers({}, Some(1), [0], {0}), NoLevel, {0},
                  map[2 := Stalled, 1 := SetInterest(Everything(Visiting), C, [0], Always)]);
    assert Visiting.visited + [C] == [C];
    Go(W, s16, 1, s16.(cache := Cache(map[C := Always], map[C := [0]], {}), threads := map[2 := Stalled, 1 := NextLoad(Visited, C)]));
  }

  /** ... and ends. */
  lemma ThreadOneRebuilds()
    ensures Reachable(W, At(Linked, map[C := Registering], Cache(map[C := Always], map[C := [0]], {}),
                            Dispatchers({}, Some(1), [0], {0}), NoLevel, {0}, map[2 := Stalled, 1 := SetMax(Visited)]))
  {
    ThreadOneStores();
    var s17 := At(Linked, map[C := Registering], Cache(map[C := Always], map[C := [0]], {}),
                  Dispatchers({}, Some(1), [0], {0}), NoLevel, {0}, map[2 := Stalled, 1 := NextLoad(Visited, C)]);
    var s18 := s17.(threads := map[2 := Stalled, 1 := FlagLoad(Visited)]);
    Go(W, s17, 1, s18);
    Go(W, s18, 1, s18.(threads := map[2 := Stalled, 1 := SetMax(Visited)]));
  }

  lemma ThreadOneSetsLevel()
    ensures Reachable(W, At(Linked, map[C := Registering], Cache(map[C := Always], map[C := [0]], {}),
                            Dispatchers({}, Some(1), [0], {0}), MaxLevel(0, Some([0])), {0},
                            map[2 := Stalled, 1 := Release(Everything(Visited))]))
  {
    ThreadOneRebuilds();
    var s19 := At(Linked, map[C := Registering], Cache(map[C := Always], map[C := [0]], {}),
                  Dispatchers({}, Some(1), [0], {0}), NoLevel, {0}, map[2 := Stalled, 1 := SetMax(Visited)]);
    Go(W, s19, 1, s19.(max := MaxLevel(0, Some([0])), threads := map[2 := Stalled, 1 := Release(Everything(Visited))]));
  }

  lemma ThreadOneUnlocks()
    ensures Reachable(W, At(Linked, map[C := Registering], Cache(map[C := Always], map[C := [0]], {}),
                            Dispatchers({}, None, [0], {0}), MaxLevel(0, Some([0])), {0}, map[2 := Stalled, 1 := Idle]))
  {
    ThreadOneSetsLevel();
    var s20 := At(Linked, map[C := Registering], Cache(map[C := Always], map[C := [0]], {}),
                  Dispatchers({}, Some(1), [0], {0}), MaxLevel(0, Some([0])), {0},
                  map[2 := Stalled, 1 := Release(Everything(Visited))]);
    Go(W, s20, 1, s20.(disp := Dispatchers({}, None, [0], {0}), threads := map[2 := Stalled, 1 := Idle]));
  }

  /** Thread 2 wakes up, and overwrites the cached interest ... */
  lemma ThreadTwoStores()
    ensures Reachable(W, At(Linked, map[C := Registering], Cache(map[C := Never], map[], {C}),
                            Dispatchers({}, None, [0], {0}), MaxLevel(0, Some([0])), {0}, map[2 := Finish(C), 1 := Idle]))
  {
    ThreadOneUnlocks();
    var s21 := At(Linked, map[C := Registering], Cache(map[C := Always], map[C := [0]], {}),
                  Dispatchers({}, None, [0], {0}), MaxLevel(0, Some([0])), {0}, map[2 := Stalled, 1 := Idle]);
    Go(W, s21, 2, s21.(cache := Cache(map[C := Never], map[], {C}), threads := map[2 := Finish(C), 1 := Idle]));
  }

  /** ... so the registration completes on a cached `Never`, wrong for the only dispatcher there is. */
  lemma JustOneRace() returns (s: State)
    ensures Reachable(W, s) && s.disp.writer == None && s.Reg(C) == Registered && C in s.cache.tainted
    ensures s.cache.interest == map[C := Never] && 0 in s.live && 0 in s.disp.registered && W.answer(0, C) == Always
    ensures !Sound(W, s, C)
  {
    ThreadTwoStores();
    var s22 := At(Linked, map[C := Registering], Cache(map[C := Never], map[], {C}),
                  Dispatchers({}, None, [0], {0}), MaxLevel(0, Some([0])), {0}, map[2 := Finish(C), 1 := Idle]);
    s := s22.(regs := map[C := Registered], threads := map[2 := Idle, 1 := Idle]);
    Go(W, s22, 2, s);
  }
}
