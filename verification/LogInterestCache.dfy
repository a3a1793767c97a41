/**
 * The interest cache for `log` records (tracing-log/src/interest_cache.rs): a per-thread LRU cache
 * of the filter's answers, thrown away whenever a global epoch moves. The LRU cache of the `lru`
 * crate is a recency list; the hash function is any function of the target's bytes.
 */
module LogInterestCache {
  import opened Options

  // ----- Packing -----

  datatype Level = Error | Warn | Info | Debug | Trace

  /** The discriminant of `log::Level`; a greater one is more verbose. */
  function Code(level: Level): (c: bv64)
    ensures 1 <= c <= 5
  {
    match level
    case Error => 1
    case Warn => 2
    case Info => 3
    case Debug => 4
    case Trace => 5
  }

  type Text = seq<bv8>

  /** The level, the bytes of the target, and the address and length in the pointer to them. */
  datatype Metadata = Metadata(level: Level, target: Text, address: bv64, length: bv64)

  datatype Key = Key(address: bv64, levelAndLength: bv64)

  function PackLevel(level: Level, length: bv64): (p: bv64)
    ensures p & 7 == Code(level)
    ensures length <= 0x1FFF_FFFF_FFFF_FFFF ==> p >> 3 == length
  {
    Code(level) | (length << 3)
  }

  function KeyOf(m: Metadata): Key {
    Key(m.address, PackLevel(m.level, m.length))
  }

  const HashMask: bv64 := 0xFFFF_FFFF_FFFF_FFFE
  const InterestMask: bv64 := 1

  function Masked(hash: bv64): bv64 {
    hash & HashMask
  }

  function InterestOf(cached: bv64): bool {
    cached & InterestMask != 0
  }

  /** The hash without its lowest bit, which holds the interest. */
  function Pack(hash: bv64, interest: bool): (v: bv64)
    ensures Masked(v) == Masked(hash)
    ensures InterestOf(v) <==> interest
  {
    Masked(hash) | (if interest then 1 else 0)
  }

  /** Records of different levels never share a key, nor do those of different addresses. */
  lemma KeyDeterminesLevel(m: Metadata, n: Metadata)
    requires KeyOf(m) == KeyOf(n)
    ensures m.level == n.level && m.address == n.address
  {
    assert Code(m.level) == KeyOf(m).levelAndLength & 7 == KeyOf(n).levelAndLength & 7 == Code(n.level);
  }

  // ----- The LRU cache -----

  datatype Entry = Entry(key: Key, value: bv64)

  /** Most recently used entry first. */
  datatype Lru = Lru(cap: nat, entries: seq<Entry>)

  function Find(entries: seq<Entry>, k: Key): (v: Option<bv64>)
    ensures v.Some? <==> k in Keys(entries)
    ensures v.Some? ==> Entry(k, v.value) in entries
  {
    if entries == [] then None
    else if entries[0].key == k then Some(entries[0].value)
    else Find(entries[1..], k)
  }

  function Keys(entries: seq<Entry>): (keys: seq<Key>)
    ensures |keys| == |entries|
    ensures forall i :: 0 <= i < |keys| ==> keys[i] == entries[i].key
  {
    if entries == [] then [] else [entries[0].key] + Keys(entries[1..])
  }

  function Without(entries: seq<Entry>, k: Key): (rest: seq<Entry>)
    ensures |rest| <= |entries|
    ensures forall e :: e in rest <==> e in entries && e.key != k
  {
    if entries == [] then []
    else if entries[0].key == k then Without(entries[1..], k)
    else [entries[0]] + Without(entries[1..], k)
  }

  function Truncated<T>(s: seq<T>, n: nat): (r: seq<T>)
    ensures forall x :: x in r ==> x in s
  {
    if |s| <= n then s else s[..n]
  }

  /** Insert or replace, as the most recent entry; the least recent one makes room. */
  function Put(lru: Lru, k: Key, v: bv64): Lru {
    lru.(entries := Truncated([Entry(k, v)] + Without(lru.entries, k), lru.cap))
  }

  // ----- One call -----

  datatype Config = Config(minVerbosity: Level, size: nat)

  const Disabled := Config(Debug, 0)

  datatype State = State(epoch: nat, minVerbosity: Level, cache: Lru)

  function Fresh(epoch: nat, config: Config): State {
    State(epoch, config.minVerbosity, Lru(config.size, []))
  }

  /** The cache is replaced if the epoch has moved. */
  function Refreshed(s: State, epoch: nat, config: Config): State {
    if epoch != s.epoch then Fresh(epoch, config) else s
  }

  predicate Cacheable(s: State, m: Metadata) {
    s.cache.cap > 0 && Code(m.level) >= Code(s.minVerbosity)
  }

  /** `asked` says whether the callback was consulted. */
  datatype Outcome = Outcome(state: State, interest: bool, asked: bool)

  /** The rest of `try_cache`; `answer` is what the callback returns if it is called. */
  function Lookup(hash: Text -> bv64, s: State, m: Metadata, answer: bool): Outcome {
    if !Cacheable(s, m) then Outcome(s, answer, true)
    else
      var k, h := KeyOf(m), hash(m.target);
      var found := Find(s.cache.entries, k);
      if found.Some? && Masked(found.value) == Masked(h)
      then Outcome(s.(cache := Put(s.cache, k, found.value)), InterestOf(found.value), false)
      else Outcome(s.(cache := Put(s.cache, k, Pack(h, answer))), answer, true)
  }

  /** `CONFIG` and `INTEREST_CACHE_EPOCH`. */
  class Process {
    var config: Config
    var epoch: nat

    constructor ()
      ensures config == Disabled && epoch == 0
    {
      config := Disabled;
      epoch := 0;
    }

    method Configure(newConfig: Option<Config>)
      modifies this
      ensures config == newConfig.UnwrapOr(Disabled) && epoch == old(epoch) + 1
    {
      config := newConfig.UnwrapOr(Disabled);
      epoch := epoch + 1;
    }

    /** `SentinelCallsite::set_interest`: the registry rebuilt its interests. */
    method SetInterest()
      modifies this
      ensures epoch == old(epoch) + 1 && config == old(config)
    {
      epoch := epoch + 1;
    }
  }

  /** The `lru` crate's cache, with the operations that `try_cache` uses. */
  class LruCache {
    var cap: nat
    var entries: seq<Entry>

    ghost function View(): Lru
      reads this
    {
      Lru(cap, entries)
    }

    constructor (size: nat)
      ensures View() == Lru(size, [])
    {
      cap := size;
      entries := [];
    }

    /** A found entry becomes the most recent one. */
    method Get(k: Key) returns (v: Option<bv64>)
      requires |entries| <= cap && Distinct(Keys(entries))
      modifies this
      ensures v == Find(old(entries), k)
      ensures View() == if v.None? then old(View()) else Put(old(View()), k, v.value)
    {
      v := Find(entries, k);
      if v.Some? {
        WithoutIsShorter(entries, k);
        entries := [Entry(k, v.value)] + Without(entries, k);
      }
    }

    method Insert(k: Key, v: bv64)
      modifies this
      ensures View() == Put(old(View()), k, v)
    {
      entries := Truncated([Entry(k, v)] + Without(entries, k), cap);
    }
  }

  /** The thread-local `STATE`. */
  class ThreadState {
    var minVerbosity: Level
    var epoch: nat
    var cache: LruCache

    ghost function View(): State
      reads this, cache
    {
      State(epoch, minVerbosity, cache.View())
    }

    ghost predicate Valid()
      reads this, cache
    {
      WellFormed(View())
    }

    constructor (process: Process)
      ensures View() == Fresh(process.epoch, process.config) && Valid() && fresh(cache)
    {
      minVerbosity, epoch := process.config.minVerbosity, process.epoch;
      cache := new LruCache(process.config.size);
    }

    /** The cache is made anew when the epoch has moved. */
    method Refresh(process: Process)
      requires Valid()
      modifies this
      ensures View() == Refreshed(old(View()), process.epoch, process.config)
      ensures Valid() && (cache == old(cache) || fresh(cache))
    {
      if process.epoch != epoch {
        minVerbosity, epoch := process.config.minVerbosity, process.epoch;
        cache := new LruCache(process.config.size);
      }
    }

    method TryCache(process: Process, hash: Text -> bv64, m: Metadata, callback: () -> bool) returns (interest: bool)
      requires Valid()
      modifies this, cache
      ensures Valid() && (cache == old(cache) || fresh(cache))
      ensures
        var o := Lookup(hash, Refreshed(old(View()), process.epoch, process.config), m, callback());
        View() == o.state && interest == o.interest
    {
      Refresh(process);
      if cache.cap == 0 || Code(m.level) < Code(minVerbosity) {
        return callback();
      }
      interest := Consult(hash, m, callback);
    }

    /** The part of `try_cache` that uses the cache. */
    method Consult(hash: Text -> bv64, m: Metadata, callback: () -> bool) returns (interest: bool)
      requires Valid() && Cacheable(View(), m)
      modifies cache
      ensures Valid()
      ensures
        var o := Lookup(hash, old(View()), m, callback());
        View() == o.state && interest == o.interest
    {
      var h, k := hash(m.target), KeyOf(m);
      ghost var before := cache.View();
      LookupKeepsWellFormed(hash, View(), m, callback());
      var found := cache.Get(k);
      if found.Some? && Masked(found.value) == Masked(h) {
        return InterestOf(found.value);
      }
      interest := callback();
      ghost var packed := Pack(h, interest);
      if found.Some? {
        PutTwice(before, k, found.value, packed);
      }
      cache.Insert(k, Pack(h, interest));
      assert cache.View() == Put(before, k, packed);
    }
  }

  // ----- The recency list stays within its capacity -----

  ghost predicate Distinct(keys: seq<Key>) {
    forall i, j :: 0 <= i < j < |keys| ==> keys[i] != keys[j]
  }

  ghost predicate WellFormed(s: State) {
    |s.cache.entries| <= s.cache.cap && Distinct(Keys(s.cache.entries))
  }

  /** The keys without `k`. */
  function Removed(keys: seq<Key>, k: Key): (rest: seq<Key>)
    ensures forall x :: x in rest <==> x in keys && x != k
  {
    if keys == [] then [] else (if keys[0] == k then [] else [keys[0]]) + Removed(keys[1..], k)
  }

  lemma {:induction false} KeysWithout(entries: seq<Entry>, k: Key)
    ensures Keys(Without(entries, k)) == Removed(Keys(entries), k)
  {
    if entries != [] {
      KeysWithout(entries[1..], k);
      var rest := Without(entries[1..], k);
      assert Keys(entries)[1..] == Keys(entries[1..]);
      assert ([entries[0]] + rest)[1..] == rest;
    }
  }

  lemma {:induction false} RemovedAbsent(keys: seq<Key>, k: Key)
    requires k !in keys
    ensures Removed(keys, k) == keys
  {
    if keys != [] {
      RemovedAbsent(keys[1..], k);
    }
  }

  lemma {:induction false} RemovedAppend(a: seq<Key>, b: seq<Key>, k: Key)
    ensures Removed(a + b, k) == Removed(a, k) + Removed(b, k)
  {
    if a == [] {
      assert a + b == b;
    } else {
      var head, rest := if a[0] == k then [] else [a[0]], a[1..];
      RemovedAppend(rest, b, k);
      assert (a + b)[1..] == rest + b;
      Associates(head, Removed(rest, k), Removed(b, k));
    }
  }

  lemma Associates(a: seq<Key>, b: seq<Key>, c: seq<Key>)
    ensures (a + b) + c == a + (b + c)
  {
  }

  /** Removing one of several distinct keys takes out exactly its place. */
  lemma {:induction false} RemovedPresent(keys: seq<Key>, i: nat)
    requires Distinct(keys) && i < |keys|
    ensures Removed(keys, keys[i]) == keys[..i] + keys[i + 1..]
  {
    if i == 0 {
      RemovedAbsent(keys[1..], keys[0]);
    } else {
      RemovedPresent(keys[1..], i - 1);
      assert keys[..i] == [keys[0]] + keys[1..][..i - 1];
    }
  }

  lemma WithoutIsShorter(entries: seq<Entry>, k: Key)
    requires Distinct(Keys(entries)) && k in Keys(entries)
    ensures |Without(entries, k)| == |entries| - 1
  {
    var i :| 0 <= i < |entries| && Keys(entries)[i] == k;
    RemovedPresent(Keys(entries), i);
    KeysWithout(entries, k);
  }

  /** The key becomes the most recent. */
  function Touched(keys: seq<Key>, k: Key): seq<Key> {
    [k] + Removed(keys, k)
  }

  lemma TouchedIsDistinct(keys: seq<Key>, k: Key)
    requires Distinct(keys)
    ensures Distinct(Touched(keys, k))
  {
    if k in keys {
      var i :| 0 <= i < |keys| && keys[i] == k;
      RemovedPresent(keys, i);
    } else {
      RemovedAbsent(keys, k);
    }
  }

  lemma {:induction false} KeysTruncated(entries: seq<Entry>, n: nat)
    ensures Keys(Truncated(entries, n)) == Truncated(Keys(entries), n)
  {
  }

  lemma PutTouches(c: Lru, k: Key, v: bv64)
    ensures Keys(Put(c, k, v).entries) == Truncated(Touched(Keys(c.entries), k), c.cap)
  {
    KeysWithout(c.entries, k);
    KeysTruncated([Entry(k, v)] + Without(c.entries, k), c.cap);
    assert Keys([Entry(k, v)] + Without(c.entries, k)) == [k] + Keys(Without(c.entries, k));
  }

  lemma PutKeepsDistinct(c: Lru, k: Key, v: bv64)
    requires Distinct(Keys(c.entries))
    ensures Distinct(Keys(Put(c, k, v).entries)) && |Put(c, k, v).entries| <= c.cap
  {
    PutTouches(c, k, v);
    TouchedIsDistinct(Keys(c.entries), k);
  }

  lemma LookupKeepsWellFormed(hash: Text -> bv64, s: State, m: Metadata, answer: bool)
    requires WellFormed(s)
    ensures WellFormed(Lookup(hash, s, m, answer).state)
  {
    forall v { PutKeepsDistinct(s.cache, KeyOf(m), v); }
  }

  lemma {:induction false} WithoutAbsent(entries: seq<Entry>, k: Key)
    requires k !in Keys(entries)
    ensures Without(entries, k) == entries
  {
    if entries != [] {
      assert k !in Keys(entries[1..]);
      WithoutAbsent(entries[1..], k);
    }
  }

  /** A promotion followed by a replacement is the replacement. */
  lemma PutTwice(c: Lru, k: Key, v: bv64, w: bv64)
    requires |c.entries| <= c.cap && Distinct(Keys(c.entries)) && k in Keys(c.entries)
    ensures Put(Put(c, k, v), k, w) == Put(c, k, w)
  {
    WithoutIsShorter(c.entries, k);
    var rest := Without(c.entries, k);
    assert k !in Keys(rest);
    WithoutAbsent(rest, k);
    assert ([Entry(k, v)] + rest)[1..] == rest;
  }

  // ----- Runs -----

  /** What happens to the two globals on other threads. `configure` is a `SetConfig` and then a `Bump`. */
  datatype Change = SetConfig(config: Config) | Bump

  datatype Globals = Globals(config: Config, epoch: nat)

  function Changed(g: Globals, changes: seq<Change>): (r: Globals)
    ensures r.epoch >= g.epoch
    decreases changes
  {
    if changes == [] then g
    else
      var c := changes[0];
      Changed(if c.Bump? then g.(epoch := g.epoch + 1) else g.(config := c.config), changes[1..])
  }

  /**
   * Something that happens while a thread runs: changes by others, or a `try_cache` of its own
   * during which others change things, first between its load of the epoch and its use of `CONFIG`,
   * then until it calls the callback.
   */
  datatype Op =
    | Others(changes: seq<Change>)
    | TryCache(m: Metadata, beforeReset: seq<Change>, beforeCall: seq<Change>)

  datatype System = System(globals: Globals, local: State)

  /** The filter, which depends on the epoch, the level and the target. */
  datatype World = World(hash: Text -> bv64, filter: (nat, Level, Text) -> bool) {
    function Wants(epoch: nat, m: Metadata): bool {
      filter(epoch, m.level, m.target)
    }
  }

  /** The globals when the callback runs. */
  function AtCall(sys: System, op: Op): Globals
    requires op.TryCache?
  {
    Changed(Changed(sys.globals, op.beforeReset), op.beforeCall)
  }

  function CallOutcome(w: World, sys: System, op: Op): Outcome
    requires op.TryCache?
  {
    var s := Refreshed(sys.local, sys.globals.epoch, Changed(sys.globals, op.beforeReset).config);
    Lookup(w.hash, s, op.m, w.Wants(AtCall(sys, op).epoch, op.m))
  }

  function Perform(w: World, sys: System, op: Op): System {
    match op
    case Others(changes) => sys.(globals := Changed(sys.globals, changes))
    case TryCache(_, _, _) => System(AtCall(sys, op), CallOutcome(w, sys, op).state)
  }

  ghost predicate Execution(w: World, systems: seq<System>, ops: seq<Op>) {
    && |systems| == |ops| + 1
    && systems[0].local == Fresh(systems[0].globals.epoch, systems[0].globals.config)
    && forall i :: 0 <= i < |ops| ==> systems[i + 1] == Perform(w, systems[i], ops[i])
  }

  /** Among the records of the run, an equal key and an equal masked hash mean an equal target. */
  ghost predicate NoCollisions(w: World, ops: seq<Op>) {
    forall i, j :: 0 <= i < |ops| && 0 <= j < |ops| && ops[i].TryCache? && ops[j].TryCache? ==>
      Separate(w, ops[i].m, ops[j].m)
  }

  ghost predicate Separate(w: World, m: Metadata, n: Metadata) {
    KeyOf(m) == KeyOf(n) && Masked(w.hash(m.target)) == Masked(w.hash(n.target)) ==> m.target == n.target
  }

  /** The entry is the filter's answer, in this epoch, for a record of the run. */
  ghost predicate Faithful(w: World, ops: seq<Op>, epoch: nat, e: Entry) {
    exists i :: 0 <= i < |ops| && ops[i].TryCache? && IsAnswer(w, epoch, ops[i].m, e)
  }

  ghost predicate IsAnswer(w: World, epoch: nat, m: Metadata, e: Entry) {
    e == Entry(KeyOf(m), Pack(w.hash(m.target), w.Wants(epoch, m)))
  }

  /** Unless the epoch has moved on, every entry is the current filter's answer. */
  ghost predicate Inv(w: World, ops: seq<Op>, sys: System) {
    && WellFormed(sys.local)
    && sys.local.epoch <= sys.globals.epoch
    && (sys.local.epoch == sys.globals.epoch ==> AllFaithful(w, ops, sys.local.epoch, sys.local.cache))
  }

  /** A hit on a faithful entry is the filter's answer. */
  lemma HitIsFaithful(w: World, ops: seq<Op>, i: nat, epoch: nat, e: Entry)
    requires NoCollisions(w, ops) && i < |ops| && ops[i].TryCache?
    requires Faithful(w, ops, epoch, e) && e.key == KeyOf(ops[i].m)
    requires Masked(e.value) == Masked(w.hash(ops[i].m.target))
    ensures InterestOf(e.value) <==> w.Wants(epoch, ops[i].m)
  {
    var j :| 0 <= j < |ops| && ops[j].TryCache? && IsAnswer(w, epoch, ops[j].m, e);
    KeyDeterminesLevel(ops[i].m, ops[j].m);
    assert Separate(w, ops[i].m, ops[j].m);
  }

  ghost predicate AllFaithful(w: World, ops: seq<Op>, epoch: nat, c: Lru) {
    forall e <- c.entries :: Faithful(w, ops, epoch, e)
  }

  lemma PutKeepsFaithful(w: World, ops: seq<Op>, epoch: nat, c: Lru, k: Key, v: bv64)
    requires AllFaithful(w, ops, epoch, c) && Faithful(w, ops, epoch, Entry(k, v))
    ensures AllFaithful(w, ops, epoch, Put(c, k, v))
  {
  }

  lemma AnswerIsFaithful(w: World, ops: seq<Op>, i: nat, epoch: nat)
    requires i < |ops| && ops[i].TryCache?
    ensures
      var m := ops[i].m;
      Faithful(w, ops, epoch, Entry(KeyOf(m), Pack(w.hash(m.target), w.Wants(epoch, m))))
  {
    var m := ops[i].m;
    assert IsAnswer(w, epoch, m, Entry(KeyOf(m), Pack(w.hash(m.target), w.Wants(epoch, m))));
  }

  /** A lookup keeps faithful entries faithful, and answers from the cache only what the filter says. */
  lemma LookupIsFaithful(w: World, ops: seq<Op>, i: nat, s: State, answer: bool)
    requires NoCollisions(w, ops) && i < |ops| && ops[i].TryCache?
    requires AllFaithful(w, ops, s.epoch, s.cache)
    ensures
      var o := Lookup(w.hash, s, ops[i].m, answer);
      && (o.asked ==> o.interest == answer)
      && (!o.asked ==> o.interest == w.Wants(s.epoch, ops[i].m))
      && (answer == w.Wants(s.epoch, ops[i].m) ==> AllFaithful(w, ops, s.epoch, o.state.cache))
  {
    var m := ops[i].m;
    var k, h, found := KeyOf(m), w.hash(m.target), Find(s.cache.entries, KeyOf(m));
    if !Cacheable(s, m) {
    } else if found.Some? && Masked(found.value) == Masked(h) {
      HitIsFaithful(w, ops, i, s.epoch, Entry(k, found.value));
      PutKeepsFaithful(w, ops, s.epoch, s.cache, k, found.value);
    } else if answer == w.Wants(s.epoch, m) {
      AnswerIsFaithful(w, ops, i, s.epoch);
      PutKeepsFaithful(w, ops, s.epoch, s.cache, k, Pack(h, answer));
    }
  }

  lemma CallKeepsInv(w: World, ops: seq<Op>, sys: System, i: nat)
    requires NoCollisions(w, ops) && i < |ops| && ops[i].TryCache?
    requires Inv(w, ops, sys)
    ensures Inv(w, ops, Perform(w, sys, ops[i]))
    ensures
      var o := CallOutcome(w, sys, ops[i]);
      o.interest == w.Wants(if o.asked then AtCall(sys, ops[i]).epoch else sys.globals.epoch, ops[i].m)
  {
    var op := ops[i];
    var s := Refreshed(sys.local, sys.globals.epoch, Changed(sys.globals, op.beforeReset).config);
    var answer := w.Wants(AtCall(sys, op).epoch, op.m);
    LookupKeepsWellFormed(w.hash, s, op.m, answer);
    LookupIsFaithful(w, ops, i, s, answer);
  }

  lemma {:induction false} InvHolds(w: World, systems: seq<System>, ops: seq<Op>, i: nat)
    requires Execution(w, systems, ops) && NoCollisions(w, ops) && i < |systems|
    ensures Inv(w, ops, systems[i])
  {
    if i > 0 {
      InvHolds(w, systems, ops, i - 1);
      if ops[i - 1].TryCache? {
        CallKeepsInv(w, ops, systems[i - 1], i - 1);
      }
    }
  }

  /**
   * Whatever was looked up, evicted, reconfigured or rebuilt before and meanwhile, `try_cache`
   * returns what the filter would: the filter of the epoch it loaded if it answers from the cache,
   * the filter at the time of the callback if it does not; with no rebuild during the call, these
   * are the one current filter.
   */
  lemma TryCacheAgreesWithTheFilter(w: World, systems: seq<System>, ops: seq<Op>, i: nat)
    requires Execution(w, systems, ops) && NoCollisions(w, ops) && i < |ops| && ops[i].TryCache?
    ensures
      var loaded, called := systems[i].globals.epoch, AtCall(systems[i], ops[i]).epoch;
      var o := CallOutcome(w, systems[i], ops[i]);
      && o.interest == w.Wants(if o.asked then called else loaded, ops[i].m)
      && (loaded == called ==> o.interest == w.Wants(loaded, ops[i].m))
  {
    InvHolds(w, systems, ops, i);
    CallKeepsInv(w, ops, systems[i], i);
  }

  /** Two cacheable records of one key and masked hash share an answer: the second is answered
      rightly exactly when the filter treats both alike. */
  lemma CollisionSharesTheAnswer(w: World, epoch: nat, config: Config, m: Metadata, n: Metadata)
    requires KeyOf(m) == KeyOf(n) && Masked(w.hash(m.target)) == Masked(w.hash(n.target))
    requires Cacheable(Fresh(epoch, config), m)
    ensures
      var first := Lookup(w.hash, Fresh(epoch, config), m, w.Wants(epoch, m)).state;
      Lookup(w.hash, first, n, w.Wants(epoch, n)).interest == w.Wants(epoch, n)
      <==> w.Wants(epoch, m) == w.Wants(epoch, n)
  {
    KeyDeterminesLevel(m, n);
    assert Without([], KeyOf(m)) == [];
  }

  // ----- What is cached -----

  /** The levels in the order of the `log` crate: errors are the least verbose. */
  predicate LessVerbose(a: Level, b: Level) {
    match a
    case Error => b != Error
    case Warn => b == Info || b == Debug || b == Trace
    case Info => b == Debug || b == Trace
    case Debug => b == Trace
    case Trace => false
  }

  /**
   * After a reset with the new configuration, the first lookup of a record asks the filter, and the
   * next one does not, exactly if the cache has room and the level is at least as verbose as the
   * configuration says; it then gives the first one's answer.
   */
  lemma RepeatIsCachedIff(hash: Text -> bv64, s: State, epoch: nat, config: Config, m: Metadata, first: bool, second: bool)
    requires epoch != s.epoch
    ensures
      var one := Lookup(hash, Refreshed(s, epoch, config), m, first);
      var two := Lookup(hash, one.state, m, second);
      && one.asked && one.interest == first
      && (!two.asked <==> config.size > 0 && !LessVerbose(m.level, config.minVerbosity))
      && two.interest == if two.asked then second else first
  {
    assert Without([], KeyOf(m)) == [];
    assert Code(m.level) < Code(config.minVerbosity) <==> LessVerbose(m.level, config.minVerbosity);
  }

  /** Without a configuration nothing is cached: every lookup asks, and leaves the state alone. */
  lemma UnconfiguredAlwaysAsks(hash: Text -> bv64, s: State, epoch: nat, m: Metadata, answer: bool)
    requires epoch != s.epoch
    ensures
      var reset := Refreshed(s, epoch, None.UnwrapOr(Disabled));
      Lookup(hash, reset, m, answer) == Outcome(reset, answer, true)
  {
  }

  // ----- What is evicted -----

  /** The keys used since the cache was made, most recent first and without a bound. */
  function Recent(uses: seq<Key>): seq<Key> {
    if uses == [] then [] else Touched(Recent(uses[..|uses| - 1]), uses[|uses| - 1])
  }

  lemma {:induction false} RecentIsDistinct(uses: seq<Key>)
    ensures Distinct(Recent(uses))
  {
    if uses != [] {
      RecentIsDistinct(uses[..|uses| - 1]);
      TouchedIsDistinct(Recent(uses[..|uses| - 1]), uses[|uses| - 1]);
    }
  }

  /** Touching a key commutes with forgetting all but the `n` most recent ones. */
  lemma TouchedTruncated(keys: seq<Key>, k: Key, n: nat)
    requires Distinct(keys) && n > 0
    ensures Truncated(Touched(Truncated(keys, n), k), n) == Truncated(Touched(keys, k), n)
  {
    if n < |keys| {
      var head, tail := keys[..n], keys[n..];
      assert keys == head + tail;
      RemovedAppend(head, tail, k);
      RemovedLength(head, k);
      Associates([k], Removed(head, k), Removed(tail, k));
      if k in head {
        assert k !in tail;
        RemovedAbsent(tail, k);
      }
      SamePrefix(Touched(head, k), Removed(tail, k), n);
    }
  }

  lemma RemovedLength(keys: seq<Key>, k: Key)
    requires Distinct(keys)
    ensures |Removed(keys, k)| == |keys| - if k in keys then 1 else 0
  {
    if k in keys {
      var i :| 0 <= i < |keys| && keys[i] == k;
      RemovedPresent(keys, i);
    } else {
      RemovedAbsent(keys, k);
    }
  }

  lemma SamePrefix(a: seq<Key>, b: seq<Key>, n: nat)
    requires |a| >= n
    ensures Truncated(a + b, n) == Truncated(a, n)
  {
  }

  /** The cache after looking up each record in turn, in one epoch. */
  function AfterLookups(hash: Text -> bv64, s: State, calls: seq<(Metadata, bool)>): State {
    if calls == [] then s
    else
      var (m, answer) := calls[|calls| - 1];
      Lookup(hash, AfterLookups(hash, s, calls[..|calls| - 1]), m, answer).state
  }

  function UsedKeys(calls: seq<(Metadata, bool)>): (keys: seq<Key>)
    ensures |keys| == |calls|
  {
    if calls == [] then [] else UsedKeys(calls[..|calls| - 1]) + [KeyOf(calls[|calls| - 1].0)]
  }

  /** After any cacheable lookups a new cache holds exactly the most recently seen level and target
      pairs, as many as fit, in order: what it evicted is the least recently seen. */
  lemma {:induction false} HoldsTheMostRecent(hash: Text -> bv64, epoch: nat, config: Config, calls: seq<(Metadata, bool)>)
    requires forall i :: 0 <= i < |calls| ==> Cacheable(Fresh(epoch, config), calls[i].0)
    ensures
      var s := AfterLookups(hash, Fresh(epoch, config), calls);
      && s == Fresh(epoch, config).(cache := Lru(config.size, s.cache.entries))
      && Keys(s.cache.entries) == Truncated(Recent(UsedKeys(calls)), config.size)
  {
    if calls != [] {
      var before := calls[..|calls| - 1];
      var (m, answer) := calls[|calls| - 1];
      HoldsTheMostRecent(hash, epoch, config, before);
      var s := AfterLookups(hash, Fresh(epoch, config), before);
      var k := KeyOf(m);
      assert Cacheable(s, m);
      forall v { PutTouches(s.cache, k, v); }
      var keys := UsedKeys(before);
      RecentIsDistinct(keys);
      TouchedTruncated(Recent(keys), k, config.size);
      assert (keys + [k])[..|keys|] == keys;
    }
  }
}
