/**
 * What every step of the callsite registry keeps, and what follows for every execution.
 */
module CallsiteProofs {
  import opened Options
  import opened Interests
  import opened LevelFilters
  import opened CallsiteRegistry

  // ----- Who holds what, read off a thread's program counter -----

  function GuardOf(pc: Pc): Option<Guard> {
    match pc
    case Retain(_, _) => Some(Write)
    case StoreJustOne => Some(Write)
    case MaxAsk(g, _, _, _) => Some(g)
    case HeadLoad(g, _, _) => Some(g)
    case Ask(job, _, _, _, _) => Some(job.Held())
    case SetInterest(job, _, _, _) => Some(job.Held())
    case NextLoad(walk, _) => Some(walk.guard)
    case FlagLoad(walk) => Some(walk.guard)
    case DynLock(walk) => Some(walk.guard)
    case DynUnlock(walk) => Some(walk.guard)
    case SetMax(walk) => Some(walk.guard)
    case Release(job) => Some(job.Held())
    case _ => None
  }

  predicate HoldsDyn(pc: Pc) {
    match pc
    case DynFlag(_) => true
    case DynAppend(_) => true
    case DynRelease(_) => true
    case Ask(job, c, _, _, _) => job.Everything? && c.Dyn?
    case SetInterest(job, c, _, _) => job.Everything? && c.Dyn?
    case DynUnlock(_) => true
    case _ => false
  }

  predicate BeforePush(pc: Pc) {
    pc.PushLoad? || pc.PushLink? || pc.PushSwap?
  }

  /** The callsite that a `register` call past its registration CAS is in charge of. */
  function Owned(pc: Pc): Option<Callsite> {
    match pc
    case PushLoad(c) => Some(c)
    case PushLink(c, _) => Some(c)
    case PushSwap(c, _) => Some(c)
    case OneRebuilder(c) => Some(c)
    case OneLock(c) => Some(c)
    case Ask(job, _, _, _, _) => if job.Register? then Some(job.callsite) else None
    case SetInterest(job, _, _, _) => if job.Register? then Some(job.callsite) else None
    case Release(job) => if job.Register? then Some(job.callsite) else None
    case Finish(c) => Some(c)
    case _ => None
  }

  // ----- The invariant -----

  ghost predicate Locks(s: State) {
    && (forall t :: t in s.disp.readers <==> GuardOf(s.Pc(t)) == Some(Read))
    && (forall t: Thread :: s.disp.writer == Some(t) <==> GuardOf(s.Pc(t)) == Some(Write))
    && (s.disp.writer.Some? ==> s.disp.readers == {})
    && (forall t: Thread :: s.dyns.owner == Some(t) <==> HoldsDyn(s.Pc(t)))
    && (s.dyns.vec != [] ==> s.dyns.flag)
    && (forall t :: s.Pc(t).DynAppend? ==> s.dyns.flag)
    && (forall c <- s.dyns.vec :: c.Dyn?)
  }

  /** Following `next` from `list_head` runs backwards through `pushed`. */
  ghost predicate Chain(s: State) {
    && s.links.head == Below(s.links.pushed, |s.links.pushed|)
    && (forall k :: 0 <= k < |s.links.pushed| ==> LinkOk(s, k))
    && (forall j, k :: 0 <= j < k < |s.links.pushed| ==> s.links.pushed[j] != s.links.pushed[k])
  }

  /** The callsite pushed just before the `k`-th one. */
  function Below(pushed: seq<Callsite>, k: nat): Option<Callsite>
    requires k <= |pushed|
  {
    if k == 0 then None else Some(pushed[k - 1])
  }

  ghost predicate LinkOk(s: State, k: nat)
    requires k < |s.links.pushed|
  {
    s.links.pushed[k].Default? && s.Next(s.links.pushed[k]) == Below(s.links.pushed, k)
  }

  ghost predicate Published(s: State, c: Callsite) {
    if c.Default? then c in s.links.pushed else c in s.dyns.vec
  }

  ghost predicate OwnerOk(s: State, t: Thread) {
    var pc := s.Pc(t);
    && (Owned(pc).Some? && Owned(pc).value.Default? ==>
          && s.Reg(Owned(pc).value) == Registering
          && (BeforePush(pc) <==> Owned(pc).value !in s.links.pushed))
    && (BeforePush(pc) ==> pc.c.Default?)
    && (pc.PushSwap? ==> s.Next(pc.c) == pc.seen)
    && (pc.RegisterCas? ==> pc.c.Default?)
    && (pc.DynAcquire? || pc.DynFlag? || pc.DynAppend? || pc.DynRelease? ==> pc.c.Dyn?)
    && (pc.DynRelease? ==> pc.c in s.dyns.vec)
    && (Owned(pc).Some? && Owned(pc).value.Dyn? ==> Owned(pc).value in s.dyns.vec)
  }

  ghost predicate Owners(s: State) {
    && (forall t :: OwnerOk(s, t))
    && (forall t, u :: Owned(s.Pc(t)).Some? && Owned(s.Pc(t)) == Owned(s.Pc(u)) && Owned(s.Pc(t)).value.Default?
          ==> t == u)
    && (forall c <- s.links.pushed :: s.Reg(c) != Unregistered)
    && (forall c :: s.Reg(c) == Registered ==> c in s.links.pushed)
  }

  /** Everyone still alive among the first `i` registered dispatchers has been asked. */
  ghost predicate Covers(s: State, asked: seq<Dispatch>, i: nat) {
    && i <= |s.disp.vec|
    && (forall j :: 0 <= j < i && s.disp.vec[j] in s.live ==> s.disp.vec[j] in asked)
    && (forall d <- asked :: d in s.disp.registered)
  }

  function Answers(w: World, asked: seq<Dispatch>, c: Callsite): seq<Interest> {
    seq(|asked|, i requires 0 <= i < |asked| => w.answer(asked[i], c))
  }

  function Hints(w: World, asked: seq<Dispatch>): seq<LevelFilter> {
    seq(|asked|, i requires 0 <= i < |asked| => HintOf(w, asked[i]))
  }

  ghost predicate AskOk(w: World, s: State, pc: Pc) {
    match pc
    case MaxAsk(g, i, asked, level) =>
      !g.JustOne? ==> Covers(s, asked, i) && level == Largest(Hints(w, asked))
    case HeadLoad(g, asked, level) =>
      !g.JustOne? ==> Covers(s, asked, |s.disp.vec|) && level == Largest(Hints(w, asked))
    case Ask(job, c, i, asked, acc) =>
      && (job.Register? ==> c == job.callsite && !job.guard.Write?)
      && (!job.Held().JustOne? ==>
           && Covers(s, asked, i)
           && (acc == None <==> asked == [])
           && acc.UnwrapOr(Never) == Common(Answers(w, asked, c)))
    case SetInterest(job, c, asked, value) =>
      && (job.Register? ==> c == job.callsite && !job.guard.Write?)
      && (!job.Held().JustOne? ==> Covers(s, asked, |s.disp.vec|) && value == Common(Answers(w, asked, c)))
    case Retain(_, i) => i <= |s.disp.vec|
    case Release(job) => !job.Held().JustOne? && (job.Register? ==> !job.guard.Write?)
    case _ => true
  }

  /** The walk so far went over exactly the newest part of the list present at its head load. */
  ghost predicate ListPart(s: State, walk: Walk) {
    && walk.snap <= |s.links.pushed|
    && (forall k :: 0 <= k < |walk.visited| && k < walk.snap ==> walk.visited[k] == s.links.pushed[walk.snap - 1 - k])
  }

  ghost predicate DynPart(s: State, walk: Walk) {
    && |walk.visited| >= walk.snap
    && walk.dynSnap <= s.dyns.vec
  }

  ghost predicate WalkAt(s: State, walk: Walk, c: Callsite) {
    && ListPart(s, walk)
    && if c.Default?
       then |walk.visited| < walk.snap && c == s.links.pushed[walk.snap - 1 - |walk.visited|]
       else
         && DynPart(s, walk)
         && |walk.visited| - walk.snap < |s.dyns.vec|
         && walk.visited[walk.snap..] == s.dyns.vec[..|walk.visited| - walk.snap]
         && c == s.dyns.vec[|walk.visited| - walk.snap]
  }

  ghost predicate WalkLevel(w: World, s: State, walk: Walk) {
    !walk.guard.JustOne? ==> Covers(s, walk.levelAsked, |s.disp.vec|) && walk.level == Largest(Hints(w, walk.levelAsked))
  }

  ghost predicate WalkOk(w: World, s: State, pc: Pc) {
    match pc
    case Ask(job, c, _, _, _) => job.Everything? ==> WalkAt(s, job.walk, c) && WalkLevel(w, s, job.walk)
    case SetInterest(job, c, _, _) => job.Everything? ==> WalkAt(s, job.walk, c) && WalkLevel(w, s, job.walk)
    case NextLoad(walk, c) =>
      && ListPart(s, walk) && WalkLevel(w, s, walk)
      && 0 < |walk.visited| <= walk.snap && c == s.links.pushed[walk.snap - |walk.visited|]
    case FlagLoad(walk) => ListPart(s, walk) && WalkLevel(w, s, walk) && |walk.visited| == walk.snap
    case DynLock(walk) =>
      ListPart(s, walk) && WalkLevel(w, s, walk) && |walk.visited| == walk.snap && walk.dynSnap <= s.dyns.vec
    case DynUnlock(walk) =>
      ListPart(s, walk) && WalkLevel(w, s, walk) && DynPart(s, walk) && walk.visited[walk.snap..] == s.dyns.vec
    case SetMax(walk) => WalkLevel(w, s, walk) && WalkDone(s, walk)
    case Release(job) => job.Everything? ==> WalkDone(s, job.walk)
    case _ => true
  }

  ghost predicate WalkDone(s: State, walk: Walk) {
    && ListPart(s, walk)
    && |walk.visited| >= walk.snap
    && walk.dynSnap <= walk.visited[walk.snap..]
  }

  ghost predicate Fresh(s: State, c: Callsite)
    requires c in s.cache.asked
  {
    forall d <- s.disp.vec :: d in s.live ==> d in s.cache.asked[c]
  }

  /** The callsites that a running `register_dispatch` has yet to visit. */
  ghost predicate Pending(s: State, pc: Pc, c: Callsite) {
    match pc
    case Retain(_, _) => true
    case StoreJustOne => true
    case MaxAsk(_, _, _, _) => true
    case HeadLoad(_, _, _) => true
    case Ask(job, x, _, _, _) => job.Everything? && PendingAt(s, job.walk, x, c)
    case SetInterest(job, x, _, _) => job.Everything? && PendingAt(s, job.walk, x, c)
    case NextLoad(walk, _) => c.Dyn? || InList(s, walk.snap - |walk.visited|, c)
    case FlagLoad(_) => c.Dyn?
    case DynLock(_) => c.Dyn?
    case _ => false
  }

  ghost predicate PendingAt(s: State, walk: Walk, x: Callsite, c: Callsite) {
    if x.Default? then c.Dyn? || InList(s, walk.snap - |walk.visited|, c)
    else exists k :: 0 <= |walk.visited| - walk.snap <= k < |s.dyns.vec| && s.dyns.vec[k] == c
  }

  ghost predicate InList(s: State, n: int, c: Callsite) {
    exists k :: 0 <= k < n && k < |s.links.pushed| && s.links.pushed[k] == c
  }

  ghost predicate Cached(w: World, s: State) {
    && s.cache.interest.Keys == s.cache.asked.Keys + s.cache.tainted
    && s.cache.asked.Keys !! s.cache.tainted
    && (forall c <- s.cache.asked ::
          && s.cache.interest[c] == Common(Answers(w, s.cache.asked[c], c))
          && (forall d <- s.cache.asked[c] :: d in s.disp.registered)
          && Published(s, c))
    && Ended(s)
  }

  /** A registration that has ended, or is past its store, has a cached interest. */
  ghost predicate Ended(s: State) {
    && (forall c :: s.Reg(c) == Registered ==> c in s.cache.interest)
    && (forall t :: s.Pc(t).Finish? ==> s.Pc(t).c in s.cache.interest)
    && (forall t :: s.Pc(t).Release? && s.Pc(t).job.Register? ==> s.Pc(t).job.callsite in s.cache.interest)
  }

  ghost predicate UpToDate(s: State) {
    && (s.disp.writer == None ==> forall c <- s.cache.asked :: Fresh(s, c))
    && (s.disp.writer.Some? ==> forall c <- s.cache.asked :: Fresh(s, c) || Pending(s, s.Pc(s.disp.writer.value), c))
    && (forall d :: d in s.live && d in s.disp.registered ==> d in s.disp.vec)
    && (forall d <- s.disp.vec :: d in s.disp.registered)
  }

  ghost predicate MaxOk(w: World, s: State) {
    && s.max.raw <= OFF_USIZE
    && (s.max.asked.Some? ==>
          && s.max.raw == Largest(Hints(w, s.max.asked.value)).AsUsize()
          && (s.disp.writer == None || s.Pc(s.disp.writer.value).Release? ==>
                forall d <- s.disp.vec :: d in s.live ==> d in s.max.asked.value))
  }

  ghost predicate Inv(w: World, s: State) {
    && Locks(s) && Chain(s) && Owners(s)
    && (forall t :: AskOk(w, s, s.Pc(t)))
    && (forall t :: WalkOk(w, s, s.Pc(t)))
    && Cached(w, s) && UpToDate(s) && MaxOk(w, s)
  }

  // ----- Every step of a thread keeps it -----

  /** Where the guards go: the lock operations and the ends of `JustOne` rebuilds move them, nothing else. */
  ghost predicate GuardStep(pc: Pc, pc': Pc) {
    && (GuardOf(pc') == Some(Read) <==> pc.OneLock? || pc.AllLock? || (GuardOf(pc) == Some(Read) && !pc.Release?))
    && (GuardOf(pc') == Some(Write) <==> pc.DispatchLock? || (GuardOf(pc) == Some(Write) && !pc.Release?))
    && (HoldsDyn(pc') <==> pc.DynAcquire? || pc.DynLock? || (HoldsDyn(pc) && !pc.DynRelease? && !pc.DynUnlock?))
    && (pc'.DynAppend? <==> pc.DynFlag?)
  }

  lemma GuardMoves(w: World, s: State, t: Thread, heard: Interest, level: LevelFilter)
    requires Chain(s) && WalkOk(w, s, s.Pc(t)) && (forall c <- s.dyns.vec :: c.Dyn?)
    ensures GuardStep(s.Pc(t), Target(w, s, s.Pc(t), heard, level))
  {
    var pc := s.Pc(t);
    if pc.HeadLoad? || pc.NextLoad? || pc.SetInterest? || pc.DynLock? {
      GuardAtVisit(w, s, pc, heard, level);
    } else {
      GuardElsewhere(w, s, pc, heard, level);
    }
  }

  lemma GuardElsewhere(w: World, s: State, pc: Pc, heard: Interest, level: LevelFilter)
    requires !pc.HeadLoad? && !pc.NextLoad? && !pc.SetInterest? && !pc.DynLock?
    ensures GuardStep(pc, Target(w, s, pc, heard, level))
  {
  }

  lemma GuardAtVisit(w: World, s: State, pc: Pc, heard: Interest, level: LevelFilter)
    requires pc.HeadLoad? || pc.NextLoad? || pc.SetInterest? || pc.DynLock?
    requires Chain(s) && WalkOk(w, s, pc) && (forall c <- s.dyns.vec :: c.Dyn?)
    ensures GuardStep(pc, Target(w, s, pc, heard, level))
  {
    match pc
    case HeadLoad(g, asked, max) =>
      assert s.links.pushed != [] ==> LinkOk(s, |s.links.pushed| - 1);
      GuardAtList(pc, Walk(g, asked, max, |s.links.pushed|, [], []), s.links.head);
    case NextLoad(walk, c) =>
      NextInList(s, walk, c);
      GuardAtList(pc, walk, s.Next(c));
    case SetInterest(_, _, _, _) => GuardAfterSet(w, s, pc);
    case DynLock(walk) => DynVisitIsDyn(s, walk);
  }

  lemma GuardAtList(pc: Pc, walk: Walk, at: Option<Callsite>)
    requires (pc.HeadLoad? || pc.NextLoad?) && GuardOf(pc) == Some(walk.guard)
    requires at.Some? ==> at.value.Default?
    ensures GuardStep(pc, Visit(walk, at))
  {
  }

  lemma DynVisitIsDyn(s: State, walk: Walk)
    requires forall c <- s.dyns.vec :: c.Dyn?
    ensures var pc := VisitDyn(s, walk); HoldsDyn(pc) && GuardOf(pc) == Some(walk.guard) && !pc.DynAppend?
  {
  }

  lemma GuardAfterSet(w: World, s: State, pc: Pc)
    requires pc.SetInterest? && WalkOk(w, s, pc) && (forall c <- s.dyns.vec :: c.Dyn?)
    ensures GuardStep(pc, AfterSet(s, pc.job, pc.c))
  {
    if pc.job.Everything? && pc.c.Dyn? {
      DynVisitIsDyn(s, pc.job.walk.(visited := pc.job.walk.visited + [pc.c]));
    }
  }

  /** Loading `next` of the callsite just visited leads to the one pushed before it. */
  lemma NextInList(s: State, walk: Walk, c: Callsite)
    requires Chain(s) && ListPart(s, walk) && 0 < |walk.visited| <= walk.snap
    requires c == s.links.pushed[walk.snap - |walk.visited|]
    ensures s.Next(c) == if |walk.visited| == walk.snap then None else Some(s.links.pushed[walk.snap - 1 - |walk.visited|])
    ensures s.Next(c).Some? ==> s.Next(c).value.Default?
  {
    var k := walk.snap - |walk.visited|;
    assert LinkOk(s, k) && (k > 0 ==> LinkOk(s, k - 1));
  }

  lemma LocksFrom(s: State, s': State, t: Thread)
    requires Locks(s) && Enabled(s, Advance(t, Never, Off)) && OwnerOk(s, t)
    requires s'.threads == s.threads[t := s'.Pc(t)] && GuardStep(s.Pc(t), s'.Pc(t))
    requires s'.disp == DispAfter(s, t, s.Pc(t)) && s'.dyns == DynsAfter(s, t, s.Pc(t))
    requires s.Pc(t).Release? ==> GuardOf(s.Pc(t)) != Some(JustOne)
    ensures Locks(s')
  {
    assert forall u :: u != t ==> s'.Pc(u) == s.Pc(u);
  }

  lemma ChainKept(s: State, s': State, t: Thread)
    requires Chain(s) && OwnerOk(s, t) && s'.links == LinksAfter(s, s.Pc(t))
    ensures Chain(s')
    ensures s.links.pushed <= s'.links.pushed
  {
    forall k | 0 <= k < |s'.links.pushed| ensures LinkOk(s', k) {
      if k < |s.links.pushed| { assert LinkOk(s, k); }
    }
  }

  /** A registration passes from its CAS to its end along one thread. */
  ghost predicate OwnerStep(s: State, pc: Pc, pc': Pc) {
    && Owned(pc') == (match pc
         case RegisterCas(c) => if s.Reg(c) == Unregistered then Some(c) else None
         case DynRelease(c) => Some(c)
         case Finish(_) => None
         case _ => Owned(pc))
    && (BeforePush(pc') <==>
          ((pc.RegisterCas? && s.Reg(pc.c) == Unregistered)
           || (BeforePush(pc) && !(pc.PushSwap? && s.links.head == pc.seen))))
    && (pc'.PushSwap? ==> pc.PushLink? && pc'.seen == pc.seen)
    && !pc'.RegisterCas? && !pc'.DynAcquire?
    && (pc'.DynFlag? || pc'.DynAppend? || pc'.DynRelease? ==>
          (pc.DynAcquire? || pc.DynFlag? || pc.DynAppend?) && pc'.c == pc.c)
    && (pc'.DynRelease? <==> pc.DynAppend?)
  }

  lemma OwnerMoves(w: World, s: State, t: Thread, heard: Interest, level: LevelFilter)
    requires AskOk(w, s, s.Pc(t)) && OwnerOk(s, t)
    ensures OwnerStep(s, s.Pc(t), Target(w, s, s.Pc(t), heard, level))
  {
  }

  /** The effect of a step of `t` on the variables that registration is about. */
  ghost predicate Registers(s: State, s': State, t: Thread) {
    && s'.links == LinksAfter(s, s.Pc(t)) && s'.regs == RegsAfter(s, s.Pc(t)) && s'.dyns == DynsAfter(s, t, s.Pc(t))
    && OwnerStep(s, s.Pc(t), s'.Pc(t))
    && (forall u :: u != t ==> s'.Pc(u) == s.Pc(u))
  }

  lemma OwnerSelf(s: State, s': State, t: Thread)
    requires Chain(s) && Owners(s) && Registers(s, s', t)
    ensures OwnerOk(s', t)
  {
    assert OwnerOk(s, t);
  }

  lemma OwnerOther(s: State, s': State, t: Thread, u: Thread)
    requires Chain(s) && Owners(s) && Registers(s, s', t) && t != u
    ensures OwnerOk(s', u)
  {
    assert OwnerOk(s, t) && OwnerOk(s, u);
  }

  lemma OwnersUnique(s: State, s': State, t: Thread)
    requires Owners(s) && Registers(s, s', t) && (forall u :: OwnerOk(s', u))
    ensures Owners(s')
  {
    assert OwnerOk(s, t);
    forall u ensures Owned(s.Pc(u)).Some? && Owned(s.Pc(u)).value.Default? ==> s.Reg(Owned(s.Pc(u)).value) == Registering {
      assert OwnerOk(s, u);
    }
  }

  lemma OwnersKept(s: State, s': State, t: Thread)
    requires Chain(s) && Owners(s) && Registers(s, s', t)
    ensures Owners(s')
  {
    forall u ensures OwnerOk(s', u) {
      if u == t { OwnerSelf(s, s', t); } else { OwnerOther(s, s', t, u); }
    }
    OwnersUnique(s, s', t);
  }

  // The questions put to the dispatchers

  lemma AnswersAppend(w: World, asked: seq<Dispatch>, d: Dispatch, c: Callsite)
    ensures Answers(w, asked + [d], c) == Answers(w, asked, c) + [w.answer(d, c)]
    ensures Hints(w, asked + [d]) == Hints(w, asked) + [HintOf(w, d)]
  {
  }

  /** Asking one more dispatcher. */
  lemma AskOne(w: World, s: State, i: nat, asked: seq<Dispatch>, acc: Option<Interest>, c: Callsite, level: LevelFilter)
    requires Covers(s, asked, i) && i < |s.disp.vec| && (forall d <- s.disp.vec :: d in s.disp.registered)
    ensures
      var d := s.disp.vec[i];
      if d in s.live then
        && Covers(s, asked + [d], i + 1)
        && (level == Largest(Hints(w, asked)) ==> Larger(level, HintOf(w, d)) == Largest(Hints(w, asked + [d])))
        && ((acc == None <==> asked == []) && acc.UnwrapOr(Never) == Common(Answers(w, asked, c)) ==>
              Combine(acc, w.answer(d, c)).value == Common(Answers(w, asked + [d], c)))
      else Covers(s, asked, i + 1)
  {
    var d := s.disp.vec[i];
    AnswersAppend(w, asked, d, c);
    CommonAppend(Answers(w, asked, c), w.answer(d, c));
    LargestAppend(Hints(w, asked), HintOf(w, d));
    assert forall x :: x in asked ==> x in asked + [d];
    assert |Answers(w, asked, c)| == |asked|;
  }

  lemma AskTarget(w: World, s: State, pc: Pc, heard: Interest, level: LevelFilter)
    requires AskOk(w, s, pc) && (forall d <- s.disp.vec :: d in s.disp.registered) && !pc.Retain?
    ensures AskOk(w, s, Target(w, s, pc, heard, level))
  {
    assert Hints(w, []) == [] && (forall c :: Answers(w, [], c) == []);
    match pc {
      case MaxAsk(g, i, asked, max) =>
        if !g.JustOne? && i < |s.disp.vec| { AskOne(w, s, i, asked, None, Dyn(0), max); }
      case Ask(job, c, i, asked, acc) =>
        if !job.Held().JustOne? && i < |s.disp.vec| { AskOne(w, s, i, asked, acc, c, Off); }
      case _ =>
    }
  }

  /** What is known about a thread's questions depends only on the dispatchers, and less of them alive is fine. */
  lemma AskFrame(w: World, s: State, s': State, pc: Pc)
    requires AskOk(w, s, pc)
    requires GuardOf(pc).Some? && !GuardOf(pc).value.JustOne? ==>
      && s'.disp.vec == s.disp.vec && s.disp.registered <= s'.disp.registered
      && (forall d <- s.disp.vec :: d in s'.live ==> d in s.live)
    ensures AskOk(w, s', pc)
  {
  }

  lemma WalkFrame(w: World, s: State, s': State, pc: Pc)
    requires WalkOk(w, s, pc)
    requires s.links.pushed <= s'.links.pushed && s.dyns.vec <= s'.dyns.vec
    requires HoldsDyn(pc) && !pc.DynRelease? ==> s.dyns.vec == s'.dyns.vec
    requires GuardOf(pc).Some? && !GuardOf(pc).value.JustOne? ==>
      && s'.disp.vec == s.disp.vec && s.disp.registered <= s'.disp.registered
      && (forall d <- s.disp.vec :: d in s'.live ==> d in s.live)
    ensures WalkOk(w, s', pc)
  {
  }

  lemma WalkVisitDyn(w: World, s: State, walk: Walk)
    requires ListPart(s, walk) && WalkLevel(w, s, walk) && DynPart(s, walk) && (forall c <- s.dyns.vec :: c.Dyn?)
    requires |walk.visited| - walk.snap <= |s.dyns.vec|
    requires walk.visited[walk.snap..] == s.dyns.vec[..|walk.visited| - walk.snap]
    ensures WalkOk(w, s, VisitDyn(s, walk))
  {
    var k := |walk.visited| - walk.snap;
    if k < |s.dyns.vec| { assert s.dyns.vec[k] in s.dyns.vec; }
  }

  lemma WalkAfterSet(w: World, s: State, pc: Pc)
    requires pc.SetInterest? && WalkOk(w, s, pc) && (forall c <- s.dyns.vec :: c.Dyn?)
    ensures WalkOk(w, s, AfterSet(s, pc.job, pc.c))
  {
    if pc.job.Everything? {
      var walk, c := pc.job.walk, pc.c;
      var walk' := walk.(visited := walk.visited + [c]);
      if c.Dyn? {
        assert walk'.visited[walk.snap..] == walk.visited[walk.snap..] + [c];
        assert s.dyns.vec[..|walk'.visited| - walk.snap] == s.dyns.vec[..|walk.visited| - walk.snap] + [c];
        WalkVisitDyn(w, s, walk');
      } else {
        assert walk'.snap - |walk'.visited| == walk.snap - 1 - |walk.visited|;
      }
    }
  }

  lemma WalkTarget(w: World, s: State, pc: Pc, heard: Interest, level: LevelFilter)
    requires WalkOk(w, s, pc) && AskOk(w, s, pc) && Chain(s)
    requires (s.dyns.vec != [] ==> s.dyns.flag) && (forall c <- s.dyns.vec :: c.Dyn?)
    ensures WalkOk(w, s, Target(w, s, pc, heard, level))
  {
    if pc.HeadLoad? || pc.NextLoad? || pc.SetInterest? || pc.DynLock? {
      WalkAtVisit(w, s, pc, heard, level);
    } else {
      WalkElsewhere(w, s, pc, heard, level);
    }
  }

  lemma WalkElsewhere(w: World, s: State, pc: Pc, heard: Interest, level: LevelFilter)
    requires !pc.HeadLoad? && !pc.NextLoad? && !pc.SetInterest? && !pc.DynLock?
    requires WalkOk(w, s, pc) && (s.dyns.vec != [] ==> s.dyns.flag)
    ensures WalkOk(w, s, Target(w, s, pc, heard, level))
  {
  }

  lemma WalkAtVisit(w: World, s: State, pc: Pc, heard: Interest, level: LevelFilter)
    requires pc.HeadLoad? || pc.NextLoad? || pc.SetInterest? || pc.DynLock?
    requires WalkOk(w, s, pc) && AskOk(w, s, pc) && Chain(s) && (forall c <- s.dyns.vec :: c.Dyn?)
    ensures WalkOk(w, s, Target(w, s, pc, heard, level))
  {
    match pc
    case HeadLoad(_, _, _) => assert s.links.pushed != [] ==> LinkOk(s, |s.links.pushed| - 1);
    case NextLoad(walk, c) => NextInList(s, walk, c);
    case SetInterest(_, _, _, _) => WalkAfterSet(w, s, pc);
    case DynLock(walk) => WalkVisitDyn(w, s, walk);
  }

  // The cached values

  /** How a registration ends: after `set_interest`, through the guard's drop if there is a guard. */
  ghost predicate FinishStep(pc: Pc, pc': Pc) {
    && (pc'.Finish? ==> (pc.SetInterest? && pc'.c == pc.c) || (pc.Release? && pc.job == Register(pc'.c, pc.job.Held())))
    && (pc'.Release? ==>
          || (pc.SetInterest? && pc'.job == pc.job && pc.job == Register(pc.c, pc.job.Held()))
          || (pc.SetMax? && pc'.job == Everything(pc.walk) && !pc.walk.guard.JustOne?))
  }

  lemma FinishMoves(w: World, s: State, pc: Pc, heard: Interest, level: LevelFilter)
    requires AskOk(w, s, pc)
    ensures FinishStep(pc, Target(w, s, pc, heard, level))
  {
  }

  lemma CachedKept(w: World, s: State, s': State, t: Thread)
    requires Cached(w, s) && AskOk(w, s, s.Pc(t)) && OwnerOk(s, t) && WalkOk(w, s, s.Pc(t))
    requires s'.cache == CacheAfter(s, s.Pc(t)) && s'.regs == RegsAfter(s, s.Pc(t))
    requires s.links.pushed <= s'.links.pushed && s.dyns.vec <= s'.dyns.vec && s.disp.registered <= s'.disp.registered
    requires forall u :: u != t ==> s'.Pc(u) == s.Pc(u)
    requires FinishStep(s.Pc(t), s'.Pc(t))
    ensures Cached(w, s')
  {
    var pc := s.Pc(t);
    KeysKept(s, s', pc);
    assert pc.SetInterest? && pc.job.Register? ==> Published(s, pc.c);
    StoredValuesKept(w, s, s', pc);
    EndedKept(s, s', t);
  }

  lemma KeysKept(s: State, s': State, pc: Pc)
    requires s'.cache == CacheAfter(s, pc)
    requires s.cache.interest.Keys == s.cache.asked.Keys + s.cache.tainted && s.cache.asked.Keys !! s.cache.tainted
    ensures s'.cache.interest.Keys == s'.cache.asked.Keys + s'.cache.tainted && s'.cache.asked.Keys !! s'.cache.tainted
    ensures s.cache.interest.Keys <= s'.cache.interest.Keys
    ensures pc.SetInterest? ==> pc.c in s'.cache.interest
  {
  }

  lemma EndedKept(s: State, s': State, t: Thread)
    requires Ended(s) && s'.regs == RegsAfter(s, s.Pc(t))
    requires s.cache.interest.Keys <= s'.cache.interest.Keys
    requires s.Pc(t).SetInterest? ==> s.Pc(t).c in s'.cache.interest
    requires forall u :: u != t ==> s'.Pc(u) == s.Pc(u)
    requires FinishStep(s.Pc(t), s'.Pc(t))
    ensures Ended(s')
  {
  }

  lemma StoredValuesKept(w: World, s: State, s': State, pc: Pc)
    requires Cached(w, s) && AskOk(w, s, pc) && WalkOk(w, s, pc)
    requires pc.SetInterest? && pc.job.Register? ==> Published(s, pc.c)
    requires s'.cache == CacheAfter(s, pc)
    requires s.links.pushed <= s'.links.pushed && s.dyns.vec <= s'.dyns.vec && s.disp.registered <= s'.disp.registered
    ensures forall c <- s'.cache.asked ::
      && s'.cache.interest[c] == Common(Answers(w, s'.cache.asked[c], c))
      && (forall d <- s'.cache.asked[c] :: d in s'.disp.registered)
      && Published(s', c)
  {
    forall c | c in s'.cache.asked
      ensures s'.cache.interest[c] == Common(Answers(w, s'.cache.asked[c], c))
      ensures forall d <- s'.cache.asked[c] :: d in s'.disp.registered
      ensures Published(s', c)
    {
      if pc.SetInterest? && c == pc.c {
      } else {
        assert c in s.cache.asked;
        assert Published(s, c);
      }
    }
  }

  /** As its `register_dispatch` goes on, what is left to visit shrinks by visits only. */
  lemma PendingMoves(w: World, s: State, pc: Pc, heard: Interest, level: LevelFilter, c: Callsite)
    requires Chain(s) && Published(s, c) && WalkOk(w, s, pc) && Pending(s, pc, c) && GuardOf(pc) == Some(Write)
    requires (s.dyns.vec != [] ==> s.dyns.flag) && (forall c <- s.dyns.vec :: c.Dyn?)
    ensures Pending(s, Target(w, s, pc, heard, level), c) || (pc.SetInterest? && c == pc.c)
  {
    match pc
    case HeadLoad(g, asked, max) => PendingAtHead(s, Walk(g, asked, max, |s.links.pushed|, [], []), c);
    case NextLoad(walk, x) => NextInList(s, walk, x);
    case DynLock(walk) => PendingDyn(s, walk, 0, c);
    case SetInterest(job, x, _, _) =>
      if c != x { PendingAfterSet(w, s, job, x, c); }
    case _ =>
  }

  lemma PendingAtHead(s: State, walk: Walk, c: Callsite)
    requires Chain(s) && Published(s, c) && walk.snap == |s.links.pushed| && walk.visited == []
    ensures Pending(s, Visit(walk, s.links.head), c)
  {
    assert c.Default? ==> InList(s, |s.links.pushed|, c);
    assert s.links.pushed != [] ==> LinkOk(s, |s.links.pushed| - 1);
  }

  lemma PendingAfterSet(w: World, s: State, job: Job, x: Callsite, c: Callsite)
    requires job.Everything? && WalkAt(s, job.walk, x) && PendingAt(s, job.walk, x, c) && c != x
    requires forall c <- s.dyns.vec :: c.Dyn?
    ensures Pending(s, AfterSet(s, job, x), c)
  {
    if x.Dyn? {
      PendingDyn(s, job.walk.(visited := job.walk.visited + [x]), |job.walk.visited| - job.walk.snap, c);
    }
  }

  lemma PendingDyn(s: State, walk: Walk, from: nat, c: Callsite)
    requires forall x <- s.dyns.vec :: x.Dyn?
    requires exists k :: from <= k < |s.dyns.vec| && s.dyns.vec[k] == c
    requires var n := |walk.visited| - walk.snap; n == from || (n == from + 1 && s.dyns.vec[from] != c)
    ensures Pending(s, VisitDyn(s, walk), c)
  {
    var k :| from <= k < |s.dyns.vec| && s.dyns.vec[k] == c;
    var n := |walk.visited| - walk.snap;
    assert n <= k && s.dyns.vec[n] in s.dyns.vec;
  }

  lemma PendingGrows(s: State, s': State, pc: Pc, c: Callsite)
    requires Pending(s, pc, c) && s.links.pushed <= s'.links.pushed && s.dyns.vec <= s'.dyns.vec
    ensures Pending(s', pc, c)
  {
  }

  /** What a step of the thread that holds the write lock does to its pending visits. */
  ghost predicate PendingStep(s: State, pc: Pc, pc': Pc) {
    && (pc.DispatchLock? ==> pc'.Retain?)
    && (pc.Retain? ==> pc'.Retain? || pc'.StoreJustOne?)
    && (GuardOf(pc) == Some(Write) ==>
          forall c :: Published(s, c) && Pending(s, pc, c) ==> Pending(s, pc', c) || (pc.SetInterest? && c == pc.c))
  }

  lemma PendingSteps(w: World, s: State, pc: Pc, heard: Interest, level: LevelFilter)
    requires Chain(s) && WalkOk(w, s, pc)
    requires (s.dyns.vec != [] ==> s.dyns.flag) && (forall c <- s.dyns.vec :: c.Dyn?)
    ensures PendingStep(s, pc, Target(w, s, pc, heard, level))
  {
    if GuardOf(pc) == Some(Write) {
      forall c | Published(s, c) && Pending(s, pc, c)
        ensures Pending(s, Target(w, s, pc, heard, level), c) || (pc.SetInterest? && c == pc.c)
      {
        PendingMoves(w, s, pc, heard, level, c);
      }
    }
  }

  lemma UpToDateKept(w: World, s: State, s': State, t: Thread)
    requires Locks(s) && AskOk(w, s, s.Pc(t)) && UpToDate(s) && (forall c <- s.cache.asked :: Published(s, c))
    requires s'.cache == CacheAfter(s, s.Pc(t)) && s'.disp == DispAfter(s, t, s.Pc(t)) && s'.live == s.live
    requires s.links.pushed <= s'.links.pushed && s.dyns.vec <= s'.dyns.vec
    requires forall u :: u != t ==> s'.Pc(u) == s.Pc(u)
    requires Enabled(s, Advance(t, Never, Off)) && PendingStep(s, s.Pc(t), s'.Pc(t))
    ensures UpToDate(s')
  {
    var pc := s.Pc(t);
    forall c | c in s'.cache.asked
      ensures Fresh(s', c) || (s'.disp.writer.Some? && Pending(s', s'.Pc(s'.disp.writer.value), c))
    {
      if pc.SetInterest? && c == pc.c {
        FreshWhenStored(w, s, s', pc);
      } else if GuardOf(pc) == Some(Write) || pc.DispatchLock? {
        WriterStaysUpToDate(s, s', t, c);
      } else {
        assert s'.disp.vec == s.disp.vec && s'.disp.writer == s.disp.writer;
        if s.disp.writer.Some? {
          assert s.disp.writer.value != t;
          if Pending(s, s.Pc(s.disp.writer.value), c) { PendingGrows(s, s', s.Pc(s.disp.writer.value), c); }
        }
      }
    }
    RegisteredKept(s, s', pc);
  }

  lemma FreshWhenStored(w: World, s: State, s': State, pc: Pc)
    requires pc.SetInterest? && AskOk(w, s, pc) && s'.cache == CacheAfter(s, pc) && s'.disp == s.disp && s'.live == s.live
    requires pc.c in s'.cache.asked
    ensures Fresh(s', pc.c)
  {
  }

  lemma WriterStaysUpToDate(s: State, s': State, t: Thread, c: Callsite)
    requires GuardOf(s.Pc(t)) == Some(Write) ==> s.disp.writer == Some(t)
    requires UpToDate(s) && c in s.cache.asked && Published(s, c)
    requires c in s'.cache.asked && s'.cache.asked[c] == s.cache.asked[c] && s'.live == s.live
    requires s'.disp == DispAfter(s, t, s.Pc(t))
    requires s.links.pushed <= s'.links.pushed && s.dyns.vec <= s'.dyns.vec
    requires GuardOf(s.Pc(t)) == Some(Write) || s.Pc(t).DispatchLock?
    requires PendingStep(s, s.Pc(t), s'.Pc(t)) && !(s.Pc(t).SetInterest? && c == s.Pc(t).c)
    ensures Fresh(s', c) || (s'.disp.writer == Some(t) && Pending(s', s'.Pc(t), c))
  {
    var pc := s.Pc(t);
    if !pc.Retain? && !pc.DispatchLock? {
      assert s'.disp.vec == s.disp.vec;
      if Pending(s, pc, c) { PendingGrows(s, s', s'.Pc(t), c); }
    }
  }

  lemma RegisteredKept(s: State, s': State, pc: Pc)
    requires UpToDate(s) && s'.live == s.live
    requires exists t :: s'.disp == DispAfter(s, t, pc)
    ensures forall d :: d in s'.live && d in s'.disp.registered ==> d in s'.disp.vec
    ensures forall d <- s'.disp.vec :: d in s'.disp.registered
  {
    var v, v' := s.disp.vec, s'.disp.vec;
    if pc.Retain? && pc.i < |v| && v[pc.i] !in s.live {
      assert v == v[..pc.i] + [v[pc.i]] + v[pc.i + 1..];
      forall d | d in s.live && d in s.disp.registered ensures d in v' {
        assert d in v && d != v[pc.i];
      }
    }
  }

  lemma MaxKept(w: World, s: State, s': State, t: Thread)
    requires MaxOk(w, s) && Locks(s) && WalkOk(w, s, s.Pc(t)) && AskOk(w, s, s.Pc(t)) && Enabled(s, Advance(t, Never, Off))
    requires s'.max == MaxAfter(s, s.Pc(t)) && s'.disp == DispAfter(s, t, s.Pc(t)) && s'.live == s.live
    requires s'.threads == s.threads[t := s'.Pc(t)]
    requires FinishStep(s.Pc(t), s'.Pc(t)) && GuardStep(s.Pc(t), s'.Pc(t))
    ensures MaxOk(w, s')
  {
  }

  // ----- Every execution -----

  /** What a step of `t` does, without saying to which program counter it leads. */
  ghost predicate Moved(w: World, s: State, s': State, t: Thread) {
    var pc, pc' := s.Pc(t), s'.Pc(t);
    && s'.links == LinksAfter(s, pc) && s'.regs == RegsAfter(s, pc) && s'.cache == CacheAfter(s, pc)
    && s'.dyns == DynsAfter(s, t, pc) && s'.disp == DispAfter(s, t, pc) && s'.max == MaxAfter(s, pc)
    && s'.live == s.live && s'.threads == s.threads[t := pc']
    && GuardStep(pc, pc') && OwnerStep(s, pc, pc') && FinishStep(pc, pc') && PendingStep(s, pc, pc')
    && AskOk(w, if pc.Retain? then s' else s, pc') && WalkOk(w, s, pc')
  }

  lemma MoveIsAStep(w: World, s: State, t: Thread, heard: Interest, level: LevelFilter)
    requires Inv(w, s) && Enabled(s, Advance(t, heard, level))
    ensures Moved(w, s, Move(w, s, t, heard, level), t)
  {
    var pc := s.Pc(t);
    assert OwnerOk(s, t) && AskOk(w, s, pc) && WalkOk(w, s, pc);
    GuardMoves(w, s, t, heard, level);
    OwnerMoves(w, s, t, heard, level);
    FinishMoves(w, s, pc, heard, level);
    PendingSteps(w, s, pc, heard, level);
    WalkTarget(w, s, pc, heard, level);
    if pc.Retain? { RetainTarget(w, s, t, heard, level); } else { AskTarget(w, s, pc, heard, level); }
  }

  lemma RetainTarget(w: World, s: State, t: Thread, heard: Interest, level: LevelFilter)
    requires s.Pc(t).Retain? && AskOk(w, s, s.Pc(t))
    ensures AskOk(w, Move(w, s, t, heard, level), Target(w, s, s.Pc(t), heard, level))
  {
  }

  lemma MoveKeepsInv(w: World, s: State, s': State, t: Thread)
    requires Inv(w, s) && Moved(w, s, s', t) && Enabled(s, Advance(t, Never, Off))
    ensures Inv(w, s')
    ensures s.links.pushed <= s'.links.pushed
  {
    var pc := s.Pc(t);
    assert OwnerOk(s, t) && AskOk(w, s, pc) && WalkOk(w, s, pc);
    assert forall u :: u != t ==> s'.Pc(u) == s.Pc(u);
    LocksFrom(s, s', t);
    ChainKept(s, s', t);
    OwnersKept(s, s', t);
    VectorsKept(s, s', t);
    CachedKept(w, s, s', t);
    MaxKept(w, s, s', t);
    UpToDateKept(w, s, s', t);
    ThreadsKept(w, s, s', t);
  }

  lemma ThreadsKept(w: World, s: State, s': State, t: Thread)
    requires Locks(s) && Moved(w, s, s', t) && s.links.pushed <= s'.links.pushed
    requires forall u :: AskOk(w, s, s.Pc(u))
    requires forall u :: WalkOk(w, s, s.Pc(u))
    ensures forall u :: AskOk(w, s', s'.Pc(u))
    ensures forall u :: WalkOk(w, s', s'.Pc(u))
  {
    VectorsKept(s, s', t);
    forall u ensures AskOk(w, s', s'.Pc(u)) && WalkOk(w, s', s'.Pc(u)) {
      if u == t { SelfKept(w, s, s', t); } else { OtherThreadKept(w, s, s', t, u); }
    }
  }

  lemma SelfKept(w: World, s: State, s': State, t: Thread)
    requires Moved(w, s, s', t) && s.links.pushed <= s'.links.pushed
    ensures AskOk(w, s', s'.Pc(t)) && WalkOk(w, s', s'.Pc(t))
  {
    VectorsKept(s, s', t);
    if !s.Pc(t).Retain? {
      AskFrame(w, s, s', s'.Pc(t));
      WalkFrame(w, s, s', s'.Pc(t));
    }
  }

  /** Only `retain` and the push after it change the dispatchers, only the locked push the callsites. */
  lemma VectorsKept(s: State, s': State, t: Thread)
    requires s'.disp == DispAfter(s, t, s.Pc(t)) && s'.dyns == DynsAfter(s, t, s.Pc(t))
    ensures !s.Pc(t).Retain? ==> s'.disp.vec == s.disp.vec && s'.disp.registered == s.disp.registered
    ensures s.dyns.vec <= s'.dyns.vec && (!s.Pc(t).DynAppend? ==> s'.dyns.vec == s.dyns.vec)
  {
  }

  lemma OtherThreadKept(w: World, s: State, s': State, t: Thread, u: Thread)
    requires Locks(s) && AskOk(w, s, s.Pc(u)) && WalkOk(w, s, s.Pc(u)) && u != t && s'.Pc(u) == s.Pc(u)
    requires s.links.pushed <= s'.links.pushed && s'.live == s.live
    requires !s.Pc(t).Retain? ==> s'.disp.vec == s.disp.vec && s'.disp.registered == s.disp.registered
    requires s.dyns.vec <= s'.dyns.vec && (!s.Pc(t).DynAppend? ==> s'.dyns.vec == s.dyns.vec)
    ensures AskOk(w, s', s'.Pc(u)) && WalkOk(w, s', s'.Pc(u))
  {
    if s.Pc(t).Retain? {
      assert s.disp.writer == Some(t) && GuardOf(s.Pc(u)) != Some(Write) && u !in s.disp.readers;
    }
    if s.Pc(t).DynAppend? {
      assert s.dyns.owner == Some(t) && !HoldsDyn(s.Pc(u));
    }
    AskFrame(w, s, s', s.Pc(u));
    WalkFrame(w, s, s', s.Pc(u));
  }

  /** No thread moved; perhaps one began a call. No registered dispatcher came to life. */
  ghost predicate Undisturbed(s: State, s': State) {
    && s'.links == s.links && s'.regs == s.regs && s'.cache == s.cache && s'.dyns == s.dyns
    && s'.justOne == s.justOne && s'.disp == s.disp && s'.max == s.max
    && (forall d <- s.disp.registered :: d in s'.live ==> d in s.live)
    && (forall u :: s'.Pc(u) == s.Pc(u) || (s.Pc(u).Idle? && Beginning(s'.Pc(u))))
  }

  predicate Beginning(pc: Pc) {
    (pc.RegisterCas? && pc.c.Default?) || (pc.DynAcquire? && pc.c.Dyn?) || pc.AllRebuilder? || pc.DispatchLock?
  }

  lemma EnvironmentIsQuiet(w: World, s: State, a: Action)
    requires Enabled(s, a) && !a.Advance?
    ensures Undisturbed(s, Perform(w, s, a))
  {
  }

  /** Dropping a dispatcher, or starting a call, disturbs nothing. */
  lemma EnvironmentKeepsInv(w: World, s: State, s': State)
    requires Inv(w, s) && Undisturbed(s, s')
    ensures Inv(w, s')
  {
    EnvironmentKeepsThreads(w, s, s');
    ChainSame(s, s');
    EnvironmentKeepsLocks(s, s');
    EnvironmentKeepsCache(w, s, s');
  }

  lemma EnvironmentKeepsThreads(w: World, s: State, s': State)
    requires Inv(w, s) && Undisturbed(s, s')
    ensures forall u :: AskOk(w, s', s'.Pc(u))
    ensures forall u :: WalkOk(w, s', s'.Pc(u))
    ensures forall u :: OwnerOk(s', u)
  {
    forall u ensures AskOk(w, s', s'.Pc(u)) && WalkOk(w, s', s'.Pc(u)) && OwnerOk(s', u) {
      assert AskOk(w, s, s.Pc(u)) && WalkOk(w, s, s.Pc(u)) && OwnerOk(s, u);
      EnvironmentKeepsThread(w, s, s', u);
    }
  }

  lemma EnvironmentKeepsThread(w: World, s: State, s': State, u: Thread)
    requires AskOk(w, s, s.Pc(u)) && WalkOk(w, s, s.Pc(u)) && OwnerOk(s, u) && Undisturbed(s, s')
    requires forall d <- s.disp.vec :: d in s.disp.registered
    ensures AskOk(w, s', s'.Pc(u)) && WalkOk(w, s', s'.Pc(u)) && OwnerOk(s', u)
  {
    if s'.Pc(u) == s.Pc(u) {
      AskFrame(w, s, s', s.Pc(u));
      WalkFrame(w, s, s', s.Pc(u));
    }
  }

  lemma ChainSame(s: State, s': State)
    requires Chain(s) && s'.links == s.links
    ensures Chain(s')
  {
    forall k | 0 <= k < |s.links.pushed| ensures LinkOk(s', k) {
      assert LinkOk(s, k);
    }
  }

  lemma EnvironmentKeepsLocks(s: State, s': State)
    requires Locks(s) && Owners(s) && s'.disp == s.disp && s'.dyns == s.dyns && s'.links == s.links && s'.regs == s.regs
    requires forall u :: GuardOf(s'.Pc(u)) == GuardOf(s.Pc(u)) && HoldsDyn(s'.Pc(u)) == HoldsDyn(s.Pc(u))
    requires forall u :: Owned(s'.Pc(u)) == Owned(s.Pc(u)) && (s'.Pc(u).DynAppend? ==> s.Pc(u).DynAppend?)
    ensures Locks(s')
    ensures (forall u :: OwnerOk(s', u)) ==> Owners(s')
  {
  }

  lemma EnvironmentKeepsCache(w: World, s: State, s': State)
    requires Cached(w, s) && UpToDate(s) && MaxOk(w, s)
    requires s'.cache == s.cache && s'.disp == s.disp && s'.dyns == s.dyns && s'.links == s.links
    requires s'.regs == s.regs && s'.max == s.max && (forall d <- s.disp.registered :: d in s'.live ==> d in s.live)
    requires forall u :: s'.Pc(u) == s.Pc(u) || (GuardOf(s.Pc(u)) == GuardOf(s'.Pc(u)) == None && !s'.Pc(u).Finish?)
    requires s.disp.writer.Some? ==> s'.Pc(s.disp.writer.value) == s.Pc(s.disp.writer.value)
    ensures Cached(w, s') && UpToDate(s') && MaxOk(w, s')
  {
    forall c | c in s.cache.asked ensures Published(s', c) {
      assert Published(s, c);
    }
    EnvironmentKeepsUpToDate(s, s');
  }

  lemma EnvironmentKeepsUpToDate(s: State, s': State)
    requires UpToDate(s) && s'.cache == s.cache && s'.disp == s.disp && s'.dyns == s.dyns && s'.links == s.links
    requires forall d <- s.disp.registered :: d in s'.live ==> d in s.live
    requires s.disp.writer.Some? ==> s'.Pc(s.disp.writer.value) == s.Pc(s.disp.writer.value)
    ensures UpToDate(s')
  {
    forall c | c in s.cache.asked && s.disp.writer.Some? && Pending(s, s.Pc(s.disp.writer.value), c)
      ensures Pending(s', s'.Pc(s.disp.writer.value), c)
    {
      PendingGrows(s, s', s.Pc(s.disp.writer.value), c);
    }
  }

  lemma InitInv(w: World, s: State)
    requires Init(s)
    ensures Inv(w, s)
  {
    assert Hints(w, []) == [];
  }

  lemma {:induction false} InvHolds(w: World, states: seq<State>, actions: seq<Action>, i: nat)
    requires Execution(w, states, actions) && i < |states|
    ensures Inv(w, states[i])
  {
    if i == 0 {
      InitInv(w, states[0]);
    } else {
      InvHolds(w, states, actions, i - 1);
      var s, a := states[i - 1], actions[i - 1];
      if a.Advance? {
        MoveIsAStep(w, s, a.t, a.heard, a.level);
        MoveKeepsInv(w, s, states[i], a.t);
      } else {
        EnvironmentIsQuiet(w, s, a);
        EnvironmentKeepsInv(w, s, states[i]);
      }
    }
  }
}
