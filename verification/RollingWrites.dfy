/**
 * `RollingFileAppender` with exclusive access (`io::Write`), tracing-appender/src/rolling.rs.
 */
module RollingWrites {
  import opened Options
  import opened Calendar
  import opened Rotations
  import opened LogNames
  import opened Pruning
  import opened Bytes

  datatype Setup = Setup(config: Config, maxFiles: Option<nat>) {
    /** At most zero files makes no sense. */
    predicate Valid() {
      maxFiles.Some? ==> maxFiles.value >= 1
    }
  }

  /** What the file system does during one call: the listing that pruning sees, the deletions that
      fail, whether the new file can be opened, and the creation time it gets. */
  datatype Env = Env(listing: seq<string>, undeletable: set<string>, openOk: bool, created: Option<int>)

  /** The appender and its directory. A file that was pruned while open has no name any more
      (`linked` is false). As history, `names` lists the names of the files opened. */
  datatype Log = Log(next: int, open: string, linked: bool, dir: Dir, names: seq<string>)

  /** Opening for appending, creating the file if needed. */
  function OpenAppend(dir: Dir, name: string, created: Option<int>): Dir {
    if name in dir then dir else dir[name := File(true, true, created, [])]
  }

  /** Times at which the appender can run: after 1970, and with a name for the current period. */
  predicate Usable(c: Config, now: Time) {
    now.Valid() && now.Timestamp() >= 0 && Representable(Stamp(c, now))
  }

  /** The names that pruning takes from a directory, if the appender prunes. */
  function Taken(s: Setup, dir: Dir, env: Env): set<string>
    requires s.Valid()
  {
    if s.maxFiles.Some? then NamesOf(Victims(s.config, dir, env.listing, s.maxFiles.value)) - env.undeletable else {}
  }

  function Pruned(s: Setup, dir: Dir, env: Env): Dir
    requires s.Valid()
  {
    dir - Taken(s, dir, env)
  }

  /** The effect of `refresh_writer`. */
  function Refreshed(s: Setup, l: Log, now: Time, env: Env): Log
    requires s.Valid() && Usable(s.config, now)
  {
    var dir := Pruned(s, l.dir, env);
    var name := JoinDate(s.config, now);
    if env.openOk
    then l.(open := name, linked := true, dir := OpenAppend(dir, name, env.created), names := l.names + [name])
    else l.(linked := l.linked && l.open in dir, dir := dir)
  }

  function Append(l: Log, buf: seq<byte>): Log {
    if l.linked && l.open in l.dir
    then l.(dir := l.dir[l.open := l.dir[l.open].(content := l.dir[l.open].content + buf)])
    else l
  }

  /** The effect of `write`. */
  function Written(s: Setup, l: Log, now: Time, buf: seq<byte>, env: Env): Log
    requires s.Valid() && Usable(s.config, now)
  {
    if l.next != 0 && now.Timestamp() >= l.next
    then Append(Refreshed(s, l.(next := NextRaw(s.config.rotation, now)), now, env), buf)
    else Append(l, buf)
  }

  /** The effect of `Inner::new` on a directory. */
  function Created(s: Setup, dir: Dir, now: Time, env: Env): Log
    requires s.Valid() && Usable(s.config, now)
  {
    var dir' := Pruned(s, dir, env);
    var name := JoinDate(s.config, now);
    Log(NextRaw(s.config.rotation, now), name, true, OpenAppend(dir', name, env.created), [name])
  }

  // ----- The code -----

  class RollingFileAppender {
    const setup: Setup
    var next: int            // next_date
    var open: string         // the file behind `writer`
    var linked: bool
    var dir: Dir             // the log directory
    ghost var names: seq<string>

    ghost function View(): Log
      reads this
    {
      Log(next, open, linked, dir, names)
    }

    /** The appender of `Inner::new` before it has opened a file. */
    constructor (setup: Setup, dir: Dir, now: Time)
      ensures this.setup == setup && View() == Log(NextRaw(setup.config.rotation, now), "", false, dir, [])
    {
      this.setup := setup;
      this.dir := dir;
      next, open, linked, names := NextRaw(setup.config.rotation, now), "", false, [];
    }

    /** `Inner::new`: `None` if the file cannot be opened, but the directory is pruned all the same. */
    static method New(setup: Setup, dir: Dir, now: Time, env: Env) returns (appender: Option<RollingFileAppender>, after: Dir)
      requires setup.Valid() && Usable(setup.config, now)
      ensures appender.Some? <==> env.openOk
      ensures appender.Some? ==>
        && fresh(appender.value) && appender.value.setup == setup
        && appender.value.View() == Created(setup, dir, now, env) && after == appender.value.dir
      ensures appender.None? ==> after == Pruned(setup, dir, env)
    {
      var inner := new RollingFileAppender(setup, dir, now);
      inner.PruneFirst(env);
      if !env.openOk {
        return None, inner.dir;
      }
      var name := JoinDate(setup.config, now);
      inner.dir := OpenAppend(inner.dir, name, env.created);
      inner.open, inner.linked, inner.names := name, true, [name];
      return Some(inner), inner.dir;
    }

    /** `prune_old_logs`: collect, sort, delete. */
    method PruneOldLogs(max: nat, listing: seq<string>, undeletable: set<string>)
      requires max >= 1
      modifies this`dir
      ensures dir == PrunedDir(setup.config, old(dir), listing, max, undeletable)
    {
      var files := Collect(listing);
      if |files| < max {
        assert Victims(setup.config, dir, listing, max) == [];
        assert dir - (NamesOf([]) - undeletable) == dir;
        return;
      }
      SortSorts(files);
      var sorted := SortByAge(files);
      Delete(sorted[..|sorted| - (max - 1)], undeletable);
    }

    /** Before a file is opened, the old ones are pruned if their number is limited. */
    method PruneFirst(env: Env)
      requires setup.Valid()
      modifies this`dir
      ensures dir == Pruned(setup, old(dir), env)
    {
      if setup.maxFiles.Some? {
        PruneOldLogs(setup.maxFiles.value, env.listing, env.undeletable);
      } else {
        assert dir - {} == dir;
      }
    }

    /** The `filter_map` over the directory. */
    method Collect(listing: seq<string>) returns (files: seq<Aged>)
      ensures files == Candidates(setup.config, dir, listing)
    {
      files := [];
      for i := 0 to |listing|
        invariant files == Candidates(setup.config, dir, listing[..i])
      {
        var name := listing[i];
        assert listing[..i + 1][..i] == listing[..i];
        if Eligible(setup.config, dir, name) {
          files := files + [Aged(name, AgeOf(setup.config, name, dir[name]).value)];
        }
      }
      assert listing[..|listing|] == listing;
    }

    /** The `remove_file` loop. */
    method Delete(files: seq<Aged>, undeletable: set<string>)
      modifies this`dir
      ensures dir == old(dir) - (NamesOf(files) - undeletable)
    {
      for i := 0 to |files|
        invariant dir == old(dir) - (NamesOf(files[..i]) - undeletable)
      {
        if files[i].name !in undeletable {
          dir := dir - {files[i].name};
        }
        assert files[..i + 1] == files[..i] + [files[i]];
        assert NamesOf(files[..i + 1]) == NamesOf(files[..i]) + {files[i].name};
      }
      assert files[..|files|] == files;
    }

    /** `should_rollover` */
    method ShouldRollover(now: Time) returns (r: Option<int>)
      ensures r == if next != 0 && now.Timestamp() >= next then Some(next) else None
    {
      if next == 0 {
        return None;
      }
      if now.Timestamp() >= next {
        return Some(next);
      }
      return None;
    }

    /** `advance_date`: a compare-exchange on `next_date`. */
    method AdvanceDate(now: Time, current: int) returns (won: bool)
      modifies this`next
      ensures won == (old(next) == current)
      ensures next == if won then NextRaw(setup.config.rotation, now) else old(next)
    {
      var nextDate := NextDate(setup.config.rotation, now);
      var raw := if nextDate.Some? then nextDate.value.Timestamp() else 0;
      won := next == current;
      if won {
        next := raw;
      }
    }

    /** `refresh_writer` */
    method RefreshWriter(now: Time, env: Env)
      requires setup.Valid() && Usable(setup.config, now)
      modifies this`open, this`linked, this`dir, this`names
      ensures View() == Refreshed(setup, old(View()), now, env)
    {
      var name := JoinDate(setup.config, now);
      PruneFirst(env);
      if env.openOk {
        dir := OpenAppend(dir, name, env.created);
        open, linked, names := name, true, names + [name];
      } else {
        linked := linked && open in dir;
      }
    }

    /** `write` */
    method Write(now: Time, buf: seq<byte>, env: Env)
      requires setup.Valid() && Usable(setup.config, now)
      modifies this
      ensures View() == Written(setup, old(View()), now, buf, env)
    {
      var current := ShouldRollover(now);
      if current.Some? {
        var won := AdvanceDate(now, current.value);
        assert won;  // the debug assertion of the source
        RefreshWriter(now, env);
      }
      if linked && open in dir {
        dir := dir[open := dir[open].(content := dir[open].content + buf)];
      }
    }
  }

  // ----- What holds between writes -----

  /** The appender is set for the period of `last`: its file is open and the next rollover ends the period. */
  ghost predicate InPeriod(s: Setup, l: Log, last: Time) {
    && Usable(s.config, last)
    && l.next == NextRaw(s.config.rotation, last)
    && l.linked && l.open in l.dir
    && (!s.config.rotation.Never? ==> l.open == JoinDate(s.config, last))
  }

  function ContentOf(dir: Dir, name: string): seq<byte> {
    if name in dir then dir[name].content else []
  }

  /** The directory in which a write finds its file: a rollover prunes it first. */
  function PriorDir(s: Setup, l: Log, now: Time, env: Env): Dir
    requires s.Valid()
  {
    if l.next != 0 && now.Timestamp() >= l.next then Pruned(s, l.dir, env) else l.dir
  }

  lemma CreatedInPeriod(s: Setup, dir: Dir, now: Time, env: Env)
    requires s.Valid() && Usable(s.config, now)
    ensures InPeriod(s, Created(s, dir, now, env), now)
  {
  }

  /** Opening the first file keeps what it holds, and touches no other: creation loses nothing but what
      it prunes. */
  lemma CreatedKeepsContent(s: Setup, dir: Dir, now: Time, env: Env, name: string)
    requires s.Valid() && Usable(s.config, now)
    ensures
      var after, pruned := Created(s, dir, now, env).dir, Pruned(s, dir, env);
      && ContentOf(after, name) == ContentOf(pruned, name)
      && (name in pruned ==> name in after && after[name] == pruned[name])
      && (name in after && name !in pruned ==> name == JoinDate(s.config, now) && after[name].regular)
      && (name in dir && name !in Taken(s, dir, env) ==> name in after && after[name] == dir[name])
  {
  }

  /** The sentinel never collides with a real rollover time. */
  lemma NextIsPositive(c: Config, now: Time)
    requires Usable(c, now) && !c.rotation.Never?
    ensures NextRaw(c.rotation, now) > now.Timestamp() >= 0
  {
    NextIsOnePeriodLater(c.rotation, now);
  }

  /**
   * One write of a rotating appender under a clock that does not run backwards: the buffer goes to
   * the end of the file named after `now`, and a file is opened exactly if the period has changed.
   */
  lemma WriteLandsInItsPeriod(s: Setup, l: Log, last: Time, now: Time, buf: seq<byte>, env: Env)
    requires s.Valid() && InPeriod(s, l, last) && Usable(s.config, now) && !s.config.rotation.Never?
    requires last.Timestamp() <= now.Timestamp() && env.openOk
    ensures
      var l', name := Written(s, l, now, buf, env), JoinDate(s.config, now);
      && InPeriod(s, l', now)
      && l'.open == name
      && l'.dir[name].content == ContentOf(PriorDir(s, l, now, env), name) + buf
      && (forall other <- l'.dir :: other != name ==> other in l.dir && l'.dir[other] == l.dir[other])
      && (l'.names == if RoundDate(s.config.rotation, now) == RoundDate(s.config.rotation, last)
                       then l.names else l.names + [name])
  {
    RolloverIffNewPeriod(s, l, last, now);
    WriteEffect(s, l, now, buf, env);
  }

  /** What a write with the current name does to the directory, given the directory it finds. */
  ghost predicate Effect(l: Log, l': Log, prior: Dir, name: string, buf: seq<byte>, rolled: bool) {
    && l'.open == name && l'.linked && name in l'.dir
    && l'.dir[name].content == ContentOf(prior, name) + buf
    && (forall other <- l'.dir :: other != name ==> other in prior && l'.dir[other] == prior[other])
    && (forall other <- prior :: other in l'.dir && other in l.dir && prior[other] == l.dir[other])
    && (!rolled ==> prior == l.dir)
    && l'.names == if rolled then l.names + [name] else l.names
  }

  lemma WriteEffect(s: Setup, l: Log, now: Time, buf: seq<byte>, env: Env)
    requires s.Valid() && Usable(s.config, now) && env.openOk
    requires !(l.next != 0 && now.Timestamp() >= l.next) ==> l.linked && l.open in l.dir && l.open == JoinDate(s.config, now)
    ensures
      var rolled := l.next != 0 && now.Timestamp() >= l.next;
      && Effect(l, Written(s, l, now, buf, env), PriorDir(s, l, now, env), JoinDate(s.config, now), buf, rolled)
      && Written(s, l, now, buf, env).next == if rolled then NextRaw(s.config.rotation, now) else l.next
  {
    if !(l.next != 0 && now.Timestamp() >= l.next) {
      assert ContentOf(l.dir, l.open) == l.dir[l.open].content;
    }
  }

  /** A write rolls over exactly when the period has changed, and the name changes with the period. */
  lemma RolloverIffNewPeriod(s: Setup, l: Log, last: Time, now: Time)
    requires !s.config.rotation.Never? && Usable(s.config, last) && Usable(s.config, now)
    requires l.next == NextRaw(s.config.rotation, last)
    requires last.Timestamp() <= now.Timestamp()
    ensures
      var r := s.config.rotation;
      && (l.next != 0 && now.Timestamp() >= l.next <==> RoundDate(r, now) != RoundDate(r, last))
      && (JoinDate(s.config, now) == JoinDate(s.config, last) <==> RoundDate(r, now) == RoundDate(r, last))
      && (RoundDate(r, now) == RoundDate(r, last) ==> NextRaw(r, now) == NextRaw(r, last))
  {
    var r := s.config.rotation;
    NextIsPositive(s.config, last);
    RoundIsMonotone(r, last, now);
    SameNameIffSamePeriod(s.config, last, now);
    NextIsOnePeriodLater(r, last);
    NextIsOnePeriodLater(r, now);
  }

  /** An appender that never rotates keeps its one file, whatever the clock says. */
  lemma NeverStays(s: Setup, l: Log, last: Time, now: Time, buf: seq<byte>, env: Env)
    requires s.Valid() && InPeriod(s, l, last) && Usable(s.config, now) && s.config.rotation.Never?
    ensures
      var l' := Written(s, l, now, buf, env);
      && l'.open == l.open && l'.names == l.names && l'.next == 0 && InPeriod(s, l', now)
      && l'.dir[l.open].content == l.dir[l.open].content + buf
  {
  }

  /**
   * The appender between two writes, whether or not its rollovers could open their files: the next
   * rollover ends the period of `last`, and the file in use is the one for the period of `used`,
   * which has no name any more if it was pruned meanwhile.
   */
  ghost predicate InUse(s: Setup, l: Log, last: Time, used: Time) {
    && Usable(s.config, last) && Usable(s.config, used) && used.Timestamp() <= last.Timestamp()
    && l.next == NextRaw(s.config.rotation, last)
    && l.open == JoinDate(s.config, used)
    && (l.linked <==> l.open in l.dir)
  }

  /**
   * Any write but one that opens a new file, so one in the period of the last write or one whose
   * rollover cannot open its file: the file in use stays in use, and gets the buffer exactly if it
   * still had its name and the pruning of this rollover has not taken it; otherwise the buffer is lost.
   */
  lemma FailedOpenKeepsOldFile(s: Setup, l: Log, last: Time, used: Time, now: Time, buf: seq<byte>, env: Env)
    requires s.Valid() && InUse(s, l, last, used) && Usable(s.config, now) && !s.config.rotation.Never?
    requires last.Timestamp() <= now.Timestamp()
    requires RoundDate(s.config.rotation, now) != RoundDate(s.config.rotation, last) ==> !env.openOk
    ensures
      var l' := Written(s, l, now, buf, env);
      var rolled := RoundDate(s.config.rotation, now) != RoundDate(s.config.rotation, last);
      && InUse(s, l', now, used) && l'.open == l.open && l'.names == l.names && l'.next > now.Timestamp()
      && (l'.linked <==> l.linked && !(rolled && l.open in Taken(s, l.dir, env)))
      && (l'.linked ==> l'.dir[l.open].content == l.dir[l.open].content + buf)
      && (forall other <- l'.dir :: other != l.open ==> other in l.dir && l'.dir[other] == l.dir[other])
      && (forall other <- l.dir :: other != l.open && !(rolled && other in Taken(s, l.dir, env)) ==> other in l'.dir)
  {
    NextIsPositive(s.config, now);
    RolloverIffNewPeriod(s, l, last, now);
    KeptEffect(s, l, now, buf, env);
  }

  /** What a write that opens no file does, given what the pruning takes. */
  ghost predicate Kept(l: Log, l': Log, taken: set<string>, buf: seq<byte>) {
    && l'.open == l.open && l'.names == l.names
    && (l'.linked <==> l.linked && l.open !in taken)
    && (l'.linked <==> l.open in l'.dir)
    && (l'.linked ==> l.open in l.dir && l'.dir[l.open].content == l.dir[l.open].content + buf)
    && (forall other <- l'.dir :: other != l.open ==> other in l.dir && l'.dir[other] == l.dir[other])
    && (forall other <- l.dir :: other != l.open && other !in taken ==> other in l'.dir)
  }

  lemma KeptEffect(s: Setup, l: Log, now: Time, buf: seq<byte>, env: Env)
    requires s.Valid() && Usable(s.config, now) && (l.linked <==> l.open in l.dir)
    requires l.next != 0 && now.Timestamp() >= l.next ==> !env.openOk
    ensures
      var rolled := l.next != 0 && now.Timestamp() >= l.next;
      var l' := Written(s, l, now, buf, env);
      && Kept(l, l', if rolled then Taken(s, l.dir, env) else {}, buf)
      && l'.next == if rolled then NextRaw(s.config.rotation, now) else l.next
  {
    if l.next != 0 && now.Timestamp() >= l.next {
      var refreshed := Refreshed(s, l.(next := NextRaw(s.config.rotation, now)), now, env);
      AppendAfterPruning(l, refreshed, Taken(s, l.dir, env), buf);
    } else {
      assert l.dir - {} == l.dir;
      AppendAfterPruning(l, l, {}, buf);
    }
  }

  lemma AppendAfterPruning(l: Log, pruned: Log, taken: set<string>, buf: seq<byte>)
    requires l.linked <==> l.open in l.dir
    requires pruned.dir == l.dir - taken && pruned.open == l.open && pruned.names == l.names
    requires pruned.linked == (l.linked && l.open in pruned.dir)
    ensures Kept(l, Append(pruned, buf), taken, buf)
  {
  }

  /** An appender that is to keep one file prunes every eligible one first, the one in use among them. */
  lemma OnlyFileIsTaken(s: Setup, dir: Dir, env: Env)
    requires s.maxFiles == Some(1) && Lists(dir, env.listing) && env.undeletable == {}
    ensures Taken(s, dir, env) == EligibleNames(s.config, dir)
  {
    var gone, kept := VictimsAndKept(s.config, dir, env.listing, 1);
    assert kept == [];
    assert NamesOf(kept) == {};
  }

  /** It happens: a new appender in an empty directory, told to keep one file, that cannot open the file of a later period. */
  lemma PrunedWhileInUse(s: Setup, start: Time, first: Env, now: Time, buf: seq<byte>, env: Env)
    requires s.maxFiles == Some(1) && !s.config.rotation.Never? && Usable(s.config, start) && Usable(s.config, now)
    requires start.Timestamp() <= now.Timestamp()
    requires RoundDate(s.config.rotation, now) != RoundDate(s.config.rotation, start)
    requires env.listing == [JoinDate(s.config, start)] && env.undeletable == {} && !env.openOk
    ensures
      var l' := Written(s, Created(s, map[], start, first), now, buf, env);
      !l'.linked && l'.dir == map[]
  {
    var l, name := Created(s, map[], start, first), JoinDate(s.config, start);
    var file := File(true, true, first.created, []);
    assert l.dir == map[name := file];
    CreatedInPeriod(s, map[], start, first);
    NewFileIsEligible(s.config, start, l.dir, file);
    OnlyFileIsTaken(s, l.dir, env);
    FailedOpenKeepsOldFile(s, l, start, start, now, buf, env);
    assert forall other :: other !in Written(s, l, now, buf, env).dir;
  }

  lemma NewFileIsEligible(c: Config, start: Time, dir: Dir, file: File)
    requires !c.rotation.Never? && Usable(c, start)
    requires file.regular && file.utf8Name && dir == map[JoinDate(c, start) := file]
    ensures JoinDate(c, start) in EligibleNames(c, dir) && Lists(dir, [JoinDate(c, start)])
  {
    OwnNamesPassFilter(c, start);
  }

  /** A rollover leaves at most `maxFiles` files that pruning would count, the new one among them. */
  lemma RolloverLeavesAtMostMax(s: Setup, l: Log, now: Time, env: Env)
    requires s.Valid() && s.maxFiles.Some? && Usable(s.config, now) && !s.config.rotation.Never?
    requires Lists(l.dir, env.listing) && env.undeletable == {} && env.openOk
    ensures
      var l' := Refreshed(s, l, now, env);
      && |EligibleNames(s.config, l'.dir)| <= s.maxFiles.value
      && JoinDate(s.config, now) in l'.dir && PassesNameFilter(s.config, JoinDate(s.config, now))
      && (forall name <- l.dir :: !Eligible(s.config, l.dir, name) ==> name in l'.dir && l'.dir[name] == l.dir[name])
  {
    var c, max, name := s.config, s.maxFiles.value, JoinDate(s.config, now);
    PruneKeepsTheNewest(c, l.dir, env.listing, max);
    OwnNamesPassFilter(c, now);
    var pruned := PrunedDir(c, l.dir, env.listing, max, {});
    var l' := Refreshed(s, l, now, env);
    assert forall x <- l'.dir :: x != name ==> x in pruned && l'.dir[x] == pruned[x];
    assert EligibleNames(c, l'.dir) <= EligibleNames(c, pruned) + {name};
    SubsetCount(EligibleNames(c, l'.dir), EligibleNames(c, pruned) + {name});
  }

  /** The file was made by this appender: a regular one, named for some time. */
  ghost predicate OwnFile(c: Config, dir: Dir, name: string) {
    && name in dir && dir[name].regular && dir[name].utf8Name
    && exists t :: Usable(c, t) && name == JoinDate(c, t)
  }

  /** So after a rollover at most `maxFiles` of the files that the appender ever made are left. */
  lemma AtMostMaxOwnFiles(s: Setup, l: Log, now: Time, env: Env, own: set<string>)
    requires s.Valid() && s.maxFiles.Some? && Usable(s.config, now) && !s.config.rotation.Never?
    requires Lists(l.dir, env.listing) && env.undeletable == {} && env.openOk
    requires forall name <- own :: OwnFile(s.config, Refreshed(s, l, now, env).dir, name)
    ensures |own| <= s.maxFiles.value
  {
    var dir := Refreshed(s, l, now, env).dir;
    RolloverLeavesAtMostMax(s, l, now, env);
    forall name | name in own ensures name in EligibleNames(s.config, dir) {
      assert OwnFile(s.config, dir, name);
      var t :| Usable(s.config, t) && name == JoinDate(s.config, t);
      OwnFilesAreEligible(s.config, t, dir);
    }
    SubsetCount(own, EligibleNames(s.config, dir));
  }

  lemma SubsetCount(xs: set<string>, ys: set<string>)
    requires xs <= ys
    ensures |xs| <= |ys|
  {
    assert ys == xs + (ys - xs);
  }
}
