/**
 * The callsite registry of tracing-core/src/callsite.rs as a transition system.
 *
 * Any number of threads run `DefaultCallsite::register`, `register` on other callsites,
 * `rebuild_interest_cache` and `register_dispatch`; dispatchers may be dropped at any moment.
 * One step is one atomic load, store or compare-exchange, one lock operation, or one
 * question put to one dispatcher. The fields after `threads` in `State` are history: no
 * step reads them to decide what to do.
 */
module CallsiteRegistry {
  import opened Options
  import opened Interests
  import opened LevelFilters

  type Thread = nat
  type Dispatch = nat

  /** `Default` callsites go to the linked list, all others to the locked vector. */
  datatype Callsite = Default(id: nat) | Dyn(id: nat)

  datatype Registration = Unregistered | Registering | Registered

  /** The subscribers' answers, fixed for the run. */
  datatype World = World(answer: (Dispatch, Callsite) -> Interest, hint: Dispatch -> Option<LevelFilter>)

  /** What a `Rebuilder` holds while it walks over dispatchers. */
  datatype Guard = JustOne | Read | Write

  /** A running `rebuild_interest`. The linked list had `snap` callsites when its head was
      loaded; `dynSnap` is the locked vector when `has_locked_callsites` was loaded. */
  datatype Walk = Walk(guard: Guard, levelAsked: seq<Dispatch>, level: LevelFilter,
                       snap: nat, visited: seq<Callsite>, dynSnap: seq<Callsite>)

  /** On whose behalf `rebuild_callsite_interest` runs. */
  datatype Job = Register(callsite: Callsite, guard: Guard) | Everything(walk: Walk) {
    function Held(): Guard {
      if Register? then guard else walk.guard
    }
  }

  datatype Pc =
    | Idle
    | RegisterCas(c: Callsite)
    | PushLoad(c: Callsite)
    | PushLink(c: Callsite, seen: Option<Callsite>)
    | PushSwap(c: Callsite, seen: Option<Callsite>)
    | DynAcquire(c: Callsite)
    | DynFlag(c: Callsite)
    | DynAppend(c: Callsite)
    | DynRelease(c: Callsite)
    | OneRebuilder(c: Callsite)
    | OneLock(c: Callsite)
    | AllRebuilder
    | AllLock
    | DispatchLock(d: Dispatch)
    | Retain(d: Dispatch, i: nat)
    | StoreJustOne
    | MaxAsk(guard: Guard, i: nat, asked: seq<Dispatch>, level: LevelFilter)
    | HeadLoad(guard: Guard, asked: seq<Dispatch>, level: LevelFilter)
    | Ask(job: Job, c: Callsite, i: nat, asked: seq<Dispatch>, acc: Option<Interest>)
    | SetInterest(job: Job, c: Callsite, asked: seq<Dispatch>, value: Interest)
    | NextLoad(walk: Walk, c: Callsite)
    | FlagLoad(walk: Walk)
    | DynLock(walk: Walk)
    | DynUnlock(walk: Walk)
    | SetMax(walk: Walk)
    | Release(job: Job)
    | Finish(c: Callsite)

  /** `CALLSITES.list_head`, the callsites' `next` pointers (null when absent) and, as history,
      the callsites in the order of their successful CAS. */
  datatype Links = Links(head: Option<Callsite>, next: map<Callsite, Option<Callsite>>, pushed: seq<Callsite>)

  /** `has_locked_callsites`, the holder of the `LOCKED_CALLSITES` mutex, and its vector. */
  datatype Dyns = Dyns(flag: bool, owner: Option<Thread>, vec: seq<Callsite>)

  /** The `interest` bytes (0xFF when absent). As history: who was asked for it if it was stored
      under a guard, and which values were stored by a `JustOne` rebuild instead. */
  datatype Cache = Cache(interest: map<Callsite, Interest>, asked: map<Callsite, seq<Dispatch>>, tainted: set<Callsite>)

  /** `LOCKED_DISPATCHERS`: its read guards, its write guard, its vector, and (history) every
      dispatcher ever pushed. */
  datatype Dispatchers = Dispatchers(readers: set<Thread>, writer: Option<Thread>, vec: seq<Dispatch>, registered: set<Dispatch>)

  /** `MAX_LEVEL` and (history) who was asked for it if it was stored under a guard. */
  datatype MaxLevel = MaxLevel(raw: nat, asked: Option<seq<Dispatch>>)

  datatype State = State(
    links: Links,
    regs: map<Callsite, Registration>,  // DefaultCallsite::registration, UNREGISTERED when absent
    cache: Cache,
    dyns: Dyns,
    justOne: bool,                      // DISPATCHERS.has_just_one
    disp: Dispatchers,
    max: MaxLevel,
    live: set<Dispatch>,                // dispatchers that `upgrade` still finds
    threads: map<Thread, Pc>            // absent threads are idle
  ) {
    function Pc(t: Thread): Pc {
      if t in threads then threads[t] else Idle
    }

    function Next(c: Callsite): Option<Callsite> {
      if c in links.next then links.next[c] else None
    }

    function Reg(c: Callsite): Registration {
      if c in regs then regs[c] else Unregistered
    }

    function Goto(t: Thread, pc: Pc): State {
      this.(threads := threads[t := pc])
    }
  }

  /** The program before anything was registered. */
  ghost predicate Init(s: State) {
    && s.links == Links(None, map[], [])
    && s.regs == map[]
    && s.cache == Cache(map[], map[], {})
    && s.dyns == Dyns(false, None, [])
    && s.justOne
    && s.disp == Dispatchers({}, None, [], {})
    && s.max == MaxLevel(OFF_USIZE, Some([]))
    && s.threads == map[]
  }

  datatype Op = RegisterDefault(c: Callsite) | RegisterDyn(c: Callsite) | Rebuild | NewDispatch(d: Dispatch)

  /** `heard` and `level` are what the thread's current default answers, should `JustOne` be in use. */
  datatype Action =
    | Drop(d: Dispatch)
    | Begin(t: Thread, op: Op)
    | Advance(t: Thread, heard: Interest, level: LevelFilter)

  ghost predicate Enabled(s: State, a: Action) {
    match a
    case Drop(_) => true
    case Begin(t, op) =>
      && s.Pc(t).Idle?
      && (match op
          case RegisterDefault(c) => c.Default?
          case RegisterDyn(c) => c.Dyn?
          case Rebuild => true
          case NewDispatch(d) => d !in s.live && d !in s.disp.registered)
    case Advance(t, _, _) =>
      match s.Pc(t)
      case Idle => false
      case DynAcquire(_) => s.dyns.owner == None
      case DynLock(_) => s.dyns.owner == None
      case OneLock(_) => s.disp.writer == None
      case AllLock => s.disp.writer == None
      case DispatchLock(_) => s.disp.writer == None && s.disp.readers == {}
      case _ => true
  }

  function Perform(w: World, s: State, a: Action): State
    requires Enabled(s, a)
  {
    match a
    case Drop(d) => s.(live := s.live - {d})
    case Begin(t, op) =>
      (if op.NewDispatch? then s.(live := s.live + {op.d}) else s).Goto(t, Start(op))
    case Advance(t, heard, level) => Move(w, s, t, heard, level)
  }

  function Start(op: Op): Pc {
    match op
    case RegisterDefault(c) => RegisterCas(c)
    case RegisterDyn(c) => DynAcquire(c)
    case Rebuild => AllRebuilder
    case NewDispatch(d) => DispatchLock(d)
  }

  /** One step of thread `t`: what it does to each shared variable, and where it goes. */
  function Move(w: World, s: State, t: Thread, heard: Interest, level: LevelFilter): State {
    State(LinksAfter(s, s.Pc(t)), RegsAfter(s, s.Pc(t)), CacheAfter(s, s.Pc(t)), DynsAfter(s, t, s.Pc(t)),
          JustOneAfter(s, s.Pc(t)), DispAfter(s, t, s.Pc(t)), MaxAfter(s, s.Pc(t)), s.live,
          s.threads[t := Target(w, s, s.Pc(t), heard, level)])
  }

  function LinksAfter(s: State, pc: Pc): Links {
    match pc
    case PushLink(c, seen) => s.links.(next := s.links.next[c := seen])
    case PushSwap(c, seen) =>
      if s.links.head == seen then s.links.(head := Some(c), pushed := s.links.pushed + [c]) else s.links
    case _ => s.links
  }

  function RegsAfter(s: State, pc: Pc): map<Callsite, Registration> {
    match pc
    case RegisterCas(c) => if s.Reg(c) == Unregistered then s.regs[c := Registering] else s.regs
    case Finish(c) => if c.Default? then s.regs[c := Registered] else s.regs
    case _ => s.regs
  }

  function CacheAfter(s: State, pc: Pc): Cache {
    match pc
    case SetInterest(job, c, asked, value) =>
      if job.Held().JustOne?
      then Cache(s.cache.interest[c := value], s.cache.asked - {c}, s.cache.tainted + {c})
      else Cache(s.cache.interest[c := value], s.cache.asked[c := asked], s.cache.tainted - {c})
    case _ => s.cache
  }

  function DynsAfter(s: State, t: Thread, pc: Pc): Dyns {
    match pc
    case DynAcquire(_) => s.dyns.(owner := Some(t))
    case DynFlag(_) => s.dyns.(flag := true)
    case DynAppend(c) => s.dyns.(vec := s.dyns.vec + [c])
    case DynRelease(_) => s.dyns.(owner := None)
    case DynLock(_) => s.dyns.(owner := Some(t))
    case DynUnlock(_) => s.dyns.(owner := None)
    case _ => s.dyns
  }

  function JustOneAfter(s: State, pc: Pc): bool {
    if pc.StoreJustOne? then |s.disp.vec| <= 1 else s.justOne
  }

  function DispAfter(s: State, t: Thread, pc: Pc): Dispatchers {
    match pc
    case OneLock(_) => s.disp.(readers := s.disp.readers + {t})
    case AllLock => s.disp.(readers := s.disp.readers + {t})
    case DispatchLock(_) => s.disp.(writer := Some(t))
    case Retain(d, i) =>
      if i >= |s.disp.vec| then s.disp.(vec := s.disp.vec + [d], registered := s.disp.registered + {d})
      else if s.disp.vec[i] in s.live then s.disp
      else s.disp.(vec := s.disp.vec[..i] + s.disp.vec[i + 1..])
    case Release(job) =>
      if job.Held().Write? then s.disp.(writer := None) else s.disp.(readers := s.disp.readers - {t})
    case _ => s.disp
  }

  function MaxAfter(s: State, pc: Pc): MaxLevel {
    match pc
    case SetMax(walk) => MaxLevel(walk.level.AsUsize(), if walk.guard.JustOne? then None else Some(walk.levelAsked))
    case _ => s.max
  }

  function Target(w: World, s: State, pc: Pc, heard: Interest, level: LevelFilter): Pc {
    match pc
    case Idle => Idle
    // DefaultCallsite::register: a thread that loses the race returns at once
    case RegisterCas(c) => if s.Reg(c) == Unregistered then PushLoad(c) else Idle
    // Callsites::push_default
    case PushLoad(c) => PushLink(c, s.links.head)
    case PushLink(c, seen) => PushSwap(c, seen)
    case PushSwap(c, seen) => if s.links.head == seen then OneRebuilder(c) else PushLink(c, s.links.head)
    // Callsites::push_dyn
    case DynAcquire(c) => DynFlag(c)
    case DynFlag(c) => DynAppend(c)
    case DynAppend(c) => DynRelease(c)
    case DynRelease(c) => OneRebuilder(c)
    // Dispatchers::rebuilder
    case OneRebuilder(c) => if s.justOne then Ask(Register(c, JustOne), c, 0, [], None) else OneLock(c)
    case OneLock(c) => Ask(Register(c, Read), c, 0, [], None)
    case AllRebuilder => if s.justOne then MaxAsk(JustOne, 0, [], Off) else AllLock
    case AllLock => MaxAsk(Read, 0, [], Off)
    // Dispatchers::register_dispatch
    case DispatchLock(d) => Retain(d, 0)
    case Retain(d, i) =>
      if i >= |s.disp.vec| then StoreJustOne
      else if s.disp.vec[i] in s.live then Retain(d, i + 1)
      else Retain(d, i)
    case StoreJustOne => MaxAsk(Write, 0, [], Off)
    // Callsites::rebuild_interest: the maximum level first
    case MaxAsk(g, i, asked, max) =>
      if g.JustOne? then HeadLoad(g, [], Larger(max, level))
      else if i >= |s.disp.vec| then HeadLoad(g, asked, max)
      else if s.disp.vec[i] in s.live then
        MaxAsk(g, i + 1, asked + [s.disp.vec[i]], Larger(max, HintOf(w, s.disp.vec[i])))
      else MaxAsk(g, i + 1, asked, max)
    // Callsites::for_each over the linked list
    case HeadLoad(g, asked, max) => Visit(Walk(g, asked, max, |s.links.pushed|, [], []), s.links.head)
    case NextLoad(walk, c) => Visit(walk, s.Next(c))
    // rebuild_callsite_interest
    case Ask(job, c, i, asked, acc) =>
      if job.Held().JustOne? then SetInterest(job, c, [], heard)
      else if i >= |s.disp.vec| then SetInterest(job, c, asked, acc.UnwrapOr(Never))
      else if s.disp.vec[i] in s.live then
        Ask(job, c, i + 1, asked + [s.disp.vec[i]], Combine(acc, w.answer(s.disp.vec[i], c)))
      else Ask(job, c, i + 1, asked, acc)
    case SetInterest(job, c, _, _) => AfterSet(s, job, c)
    // Callsites::for_each over the locked vector
    case FlagLoad(walk) =>
      var walk' := walk.(dynSnap := s.dyns.vec);
      if s.dyns.flag then DynLock(walk') else SetMax(walk')
    case DynLock(walk) => VisitDyn(s, walk)
    case DynUnlock(walk) => SetMax(walk)
    // the end of rebuild_interest, the guard's drop, and the end of register
    case SetMax(walk) => if walk.guard.JustOne? then Idle else Release(Everything(walk))
    case Release(job) => if job.Register? then Finish(job.callsite) else Idle
    case Finish(c) => Idle
  }

  function Combine(acc: Option<Interest>, x: Interest): Option<Interest> {
    Some(if acc.None? then x else acc.value.And(x))
  }

  /** A subscriber without a hint may enable every level. */
  function HintOf(w: World, d: Dispatch): LevelFilter {
    w.hint(d).UnwrapOr(UpTo(Trace))
  }

  function Visit(walk: Walk, at: Option<Callsite>): Pc {
    if at.None? then FlagLoad(walk) else Ask(Everything(walk), at.value, 0, [], None)
  }

  function VisitDyn(s: State, walk: Walk): Pc {
    var k := |walk.visited| - walk.snap;
    if 0 <= k < |s.dyns.vec| then Ask(Everything(walk), s.dyns.vec[k], 0, [], None) else DynUnlock(walk)
  }

  function AfterSet(s: State, job: Job, c: Callsite): Pc {
    if job.Register? then (if job.guard.JustOne? then Finish(c) else Release(job))
    else
      var walk := job.walk.(visited := job.walk.visited + [c]);
      if c.Default? then NextLoad(walk, c) else VisitDyn(s, walk)
  }

  /** Any interleaving of any number of threads, from the start of the program. */
  ghost predicate Execution(w: World, states: seq<State>, actions: seq<Action>) {
    && |states| == |actions| + 1
    && Init(states[0])
    && forall i :: 0 <= i < |actions| ==>
         Enabled(states[i], actions[i]) && states[i + 1] == Perform(w, states[i], actions[i])
  }
}
