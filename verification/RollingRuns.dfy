/**
 * Whole runs of a rotating appender under a clock that does not go back, with rollovers that may
 * fail to open their file.
 */
module RollingRuns {
  import opened Calendar
  import opened Rotations
  import opened LogNames
  import opened Pruning
  import opened Bytes
  import opened RollingWrites

  datatype Call = Call(now: Time, buf: seq<byte>, env: Env)

  ghost predicate AllUsable(c: Config, calls: seq<Call>) {
    calls == [] || (AllUsable(c, calls[..|calls| - 1]) && Usable(c, calls[|calls| - 1].now))
  }

  /** The time of the last call, or of the start. */
  function LastTime(start: Time, calls: seq<Call>): Time {
    if calls == [] then start else calls[|calls| - 1].now
  }

  /** The clock never runs backwards. */
  ghost predicate Ordered(start: Time, calls: seq<Call>) {
    calls == []
    || var init := calls[..|calls| - 1];
       Ordered(start, init) && LastTime(start, init).Timestamp() <= calls[|calls| - 1].now.Timestamp()
  }

  ghost function RunAll(s: Setup, l: Log, calls: seq<Call>): Log
    requires s.Valid() && AllUsable(s.config, calls)
  {
    if calls == [] then l
    else
      var init, last := calls[..|calls| - 1], calls[|calls| - 1];
      Written(s, RunAll(s, l, init), last.now, last.buf, last.env)
  }

  // ----- What a run is expected to do -----

  /** The last call begins a new period. */
  predicate Rolls(c: Config, before: Time, call: Call)
    requires !c.rotation.Never?
  {
    RoundDate(c.rotation, call.now) != RoundDate(c.rotation, before)
  }

  /** A time in the period whose file is in use: that of the last rollover that could open its file. */
  ghost function Used(c: Config, start: Time, calls: seq<Call>): (used: Time)
    requires !c.rotation.Never? && Usable(c, start) && AllUsable(c, calls)
    ensures Usable(c, used)
    ensures Ordered(start, calls) ==> used.Timestamp() <= LastTime(start, calls).Timestamp()
  {
    if calls == [] then start
    else
      var init, last := calls[..|calls| - 1], calls[|calls| - 1];
      if Rolls(c, LastTime(start, init), last) && last.env.openOk then last.now else Used(c, start, init)
  }

  /** The last rollover, if there was one, could open its file. */
  ghost predicate Opened(c: Config, start: Time, calls: seq<Call>)
    requires !c.rotation.Never?
  {
    calls == []
    || var init, last := calls[..|calls| - 1], calls[|calls| - 1];
       if Rolls(c, LastTime(start, init), last) then last.env.openOk else Opened(c, start, init)
  }

  /** Everything that was written while the file in use was the named one. */
  ghost function SentTo(c: Config, start: Time, calls: seq<Call>, name: string): seq<byte>
    requires !c.rotation.Never? && Usable(c, start) && AllUsable(c, calls)
  {
    if calls == [] then []
    else
      SentTo(c, start, calls[..|calls| - 1], name)
      + if JoinDate(c, Used(c, start, calls)) == name then calls[|calls| - 1].buf else []
  }

  /** The names of the files opened. */
  ghost function OpenedNames(c: Config, start: Time, calls: seq<Call>): seq<string>
    requires !c.rotation.Never? && AllUsable(c, calls)
  {
    if calls == [] then []
    else
      var init, last := calls[..|calls| - 1], calls[|calls| - 1];
      OpenedNames(c, start, init)
      + if Rolls(c, LastTime(start, init), last) && last.env.openOk then [JoinDate(c, last.now)] else []
  }

  // ----- Any rollovers -----

  /** The appender after the calls, and what the file of the given name then holds. */
  ghost predicate Accounted(s: Setup, l: Log, start: Time, calls: seq<Call>, name: string, l': Log)
    requires !s.config.rotation.Never? && Usable(s.config, start) && AllUsable(s.config, calls)
  {
    var sent := SentTo(s.config, start, calls, name);
    && InUse(s, l', LastTime(start, calls), Used(s.config, start, calls))
    && (Opened(s.config, start, calls) ==> l'.linked)
    && l'.names == l.names + OpenedNames(s.config, start, calls)
    && (s.maxFiles.None? ==> l'.linked && ContentOf(l'.dir, name) == ContentOf(l.dir, name) + sent)
    && (name in l'.dir ==> Holds(l.dir, l'.dir, name, sent))
  }

  /**
   * Over any sequence of writes, whichever rollovers fail to open their file, the file of the last
   * one that succeeded is in use, and each file ends up with what it held before followed by exactly
   * the buffers written while it was in use, in order. With pruning this holds of the files that are
   * left; one that was pruned just before it was opened holds those buffers alone.
   */
  lemma {:induction false} BuffersLandInTheFileInUse(s: Setup, l: Log, start: Time, calls: seq<Call>, name: string)
    requires s.Valid() && !s.config.rotation.Never?
    requires InPeriod(s, l, start) && Ordered(start, calls) && AllUsable(s.config, calls)
    ensures Accounted(s, l, start, calls, name, RunAll(s, l, calls))
  {
    if calls != [] {
      var init, last := calls[..|calls| - 1], calls[|calls| - 1];
      BuffersLandInTheFileInUse(s, l, start, init, name);
      var mid := RunAll(s, l, init);
      OneMoreWrite(s, mid, LastTime(start, init), Used(s.config, start, init), last, name);
      OneMoreCall(s, l, start, calls, name, mid, Written(s, mid, last.now, last.buf, last.env));
    } else {
      assert ContentOf(l.dir, name) + [] == ContentOf(l.dir, name) && l.names + [] == l.names;
    }
  }

  /** What one call does for the file of the given name. */
  ghost predicate Stepped(s: Setup, l: Log, l': Log, before: Time, used: Time, call: Call, name: string)
    requires !s.config.rotation.Never? && Usable(s.config, used) && Usable(s.config, call.now)
  {
    var opens := Rolls(s.config, before, call) && call.env.openOk;
    var used' := if opens then call.now else used;
    && InUse(s, l', call.now, used')
    && (!Rolls(s.config, before, call) && l.linked ==> l'.linked)
    && (s.maxFiles.None? && l.linked ==> l'.linked)
    && Landed(l, l', JoinDate(s.config, used'), opens, call.buf, s.maxFiles.None?, name)
  }

  /** The buffer goes to the target, which has just been opened or was in use before, if that has a name. */
  ghost predicate Landed(l: Log, l': Log, target: string, opens: bool, buf: seq<byte>, unpruned: bool, name: string) {
    var sent := if target == name then buf else [];
    && (opens ==> l'.linked)
    && l'.names == l.names + (if opens then [target] else [])
    && (unpruned && l.linked ==> ContentOf(l'.dir, name) == ContentOf(l.dir, name) + sent)
    && (name in l'.dir ==>
          if opens && target == name then Holds(l.dir, l'.dir, name, sent)
          else name in l.dir && ContentOf(l'.dir, name) == ContentOf(l.dir, name) + sent)
  }

  lemma OneMoreWrite(s: Setup, l: Log, before: Time, used: Time, call: Call, name: string)
    requires s.Valid() && !s.config.rotation.Never? && InUse(s, l, before, used)
    requires Usable(s.config, call.now) && before.Timestamp() <= call.now.Timestamp()
    ensures Stepped(s, l, Written(s, l, call.now, call.buf, call.env), before, used, call, name)
  {
    if Rolls(s.config, before, call) && call.env.openOk {
      WriteThatOpens(s, l, before, used, call, name);
    } else {
      WriteThatKeeps(s, l, before, used, call, name);
    }
  }

  lemma WriteThatKeeps(s: Setup, l: Log, before: Time, used: Time, call: Call, name: string)
    requires s.Valid() && !s.config.rotation.Never? && InUse(s, l, before, used)
    requires Usable(s.config, call.now) && before.Timestamp() <= call.now.Timestamp()
    requires !(Rolls(s.config, before, call) && call.env.openOk)
    ensures Stepped(s, l, Written(s, l, call.now, call.buf, call.env), before, used, call, name)
  {
    var l' := Written(s, l, call.now, call.buf, call.env);
    RolloverIffNewPeriod(s, l, before, call.now);
    FailedOpenKeepsOldFile(s, l, before, used, call.now, call.buf, call.env);
    KeptEffect(s, l, call.now, call.buf, call.env);
    var taken := if Rolls(s.config, before, call) then Taken(s, l.dir, call.env) else {};
    KeptFileStep(l, l', taken, call.buf, s.maxFiles.None?, name);
  }

  lemma WriteThatOpens(s: Setup, l: Log, before: Time, used: Time, call: Call, name: string)
    requires s.Valid() && !s.config.rotation.Never? && InUse(s, l, before, used)
    requires Usable(s.config, call.now) && before.Timestamp() <= call.now.Timestamp()
    requires Rolls(s.config, before, call) && call.env.openOk
    ensures Stepped(s, l, Written(s, l, call.now, call.buf, call.env), before, used, call, name)
  {
    RolloverIffNewPeriod(s, l, before, call.now);
    var l', prior := RolledWrite(s, l, call);
    OpenedFileStep(s, l, l', prior, before, used, call, name);
  }

  lemma RolledWrite(s: Setup, l: Log, call: Call) returns (l': Log, prior: Dir)
    requires s.Valid() && Usable(s.config, call.now) && call.env.openOk
    requires l.next != 0 && call.now.Timestamp() >= l.next
    ensures l' == Written(s, l, call.now, call.buf, call.env) && l'.next == NextRaw(s.config.rotation, call.now)
    ensures Effect(l, l', prior, JoinDate(s.config, call.now), call.buf, true)
    ensures s.maxFiles.None? ==> prior == l.dir
  {
    l', prior := Written(s, l, call.now, call.buf, call.env), PriorDir(s, l, call.now, call.env);
    WriteEffect(s, l, call.now, call.buf, call.env);
    if s.maxFiles.None? {
      assert l.dir - {} == l.dir;
    }
  }

  lemma OpenedFileStep(s: Setup, l: Log, l': Log, prior: Dir, before: Time, used: Time, call: Call, name: string)
    requires !s.config.rotation.Never? && Usable(s.config, used) && Usable(s.config, call.now)
    requires Rolls(s.config, before, call) && call.env.openOk && (s.maxFiles.None? ==> prior == l.dir)
    requires Effect(l, l', prior, JoinDate(s.config, call.now), call.buf, true)
    requires l'.next == NextRaw(s.config.rotation, call.now)
    ensures Stepped(s, l, l', before, used, call, name)
  {
    ContentStep(l, l', prior, JoinDate(s.config, call.now), call.buf, s.maxFiles.None?, name);
  }

  lemma ContentStep(l: Log, l': Log, prior: Dir, current: string, buf: seq<byte>, unpruned: bool, name: string)
    requires Effect(l, l', prior, current, buf, true) && (unpruned ==> prior == l.dir)
    ensures Landed(l, l', current, true, buf, unpruned, name)
  {
    assert ContentOf(l.dir, name) + [] == ContentOf(l.dir, name);
    assert [] + buf == buf;
  }

  lemma KeptFileStep(l: Log, l': Log, taken: set<string>, buf: seq<byte>, unpruned: bool, name: string)
    requires Kept(l, l', taken, buf) && (l.linked <==> l.open in l.dir) && (unpruned ==> taken == {})
    ensures Landed(l, l', l.open, false, buf, unpruned, name)
  {
    assert ContentOf(l.dir, name) + [] == ContentOf(l.dir, name);
    assert l.names + [] == l.names;
  }

  lemma OneMoreCall(s: Setup, l: Log, start: Time, calls: seq<Call>, name: string, mid: Log, l': Log)
    requires !s.config.rotation.Never? && Usable(s.config, start)
    requires Ordered(start, calls) && AllUsable(s.config, calls) && calls != []
    requires Accounted(s, l, start, calls[..|calls| - 1], name, mid)
    requires var init := calls[..|calls| - 1];
      Stepped(s, mid, l', LastTime(start, init), Used(s.config, start, init), calls[|calls| - 1], name)
    ensures Accounted(s, l, start, calls, name, l')
  {
    var init, last := calls[..|calls| - 1], calls[|calls| - 1];
    var before := LastTime(start, init);
    var opens := Rolls(s.config, before, last) && last.env.openOk;
    var isNew := opens && JoinDate(s.config, last.now) == name;
    if isNew {
      NothingSentYet(s.config, start, init, before, last.now);
    }
    Totals(l, mid, l', name, SentTo(s.config, start, init, name),
           if JoinDate(s.config, Used(s.config, start, calls)) == name then last.buf else [],
           OpenedNames(s.config, start, init), if opens then [JoinDate(s.config, last.now)] else [],
           s.maxFiles.None?, isNew);
  }

  /** How what one call does adds up with what the earlier ones did. */
  lemma Totals(l: Log, mid: Log, l': Log, name: string, sent: seq<byte>, more: seq<byte>,
               entered: seq<string>, enteredNow: seq<string>, unpruned: bool, isNew: bool)
    requires mid.names == l.names + entered && l'.names == mid.names + enteredNow
    requires unpruned ==> ContentOf(mid.dir, name) == ContentOf(l.dir, name) + sent
    requires unpruned ==> ContentOf(l'.dir, name) == ContentOf(mid.dir, name) + more
    requires name in mid.dir ==> Holds(l.dir, mid.dir, name, sent)
    requires name in l'.dir ==>
      if isNew then sent == [] && Holds(mid.dir, l'.dir, name, more)
      else name in mid.dir && ContentOf(l'.dir, name) == ContentOf(mid.dir, name) + more
    ensures l'.names == l.names + (entered + enteredNow)
    ensures unpruned ==> ContentOf(l'.dir, name) == ContentOf(l.dir, name) + (sent + more)
    ensures name in l'.dir ==> Holds(l.dir, l'.dir, name, sent + more)
  {
    Joined(l.names, entered, enteredNow, mid.names, l'.names);
    if unpruned {
      Joined(ContentOf(l.dir, name), sent, more, ContentOf(mid.dir, name), ContentOf(l'.dir, name));
    }
    if name in l'.dir {
      HoldsMore(l.dir, mid.dir, l'.dir, name, sent, more, isNew);
    }
  }

  lemma Joined<T>(a: seq<T>, b: seq<T>, c: seq<T>, ab: seq<T>, abc: seq<T>)
    requires ab == a + b && abc == ab + c
    ensures abc == a + (b + c)
  {
  }

  /** The file holds what it held before, if it was not pruned in between, and then `sent`. */
  ghost predicate Holds(before: Dir, after: Dir, name: string, sent: seq<byte>) {
    ContentOf(after, name) == ContentOf(before, name) + sent || ContentOf(after, name) == sent
  }

  lemma HoldsMore(d0: Dir, d1: Dir, d2: Dir, name: string, sent: seq<byte>, more: seq<byte>, isNew: bool)
    requires name in d1 ==> Holds(d0, d1, name, sent)
    requires if isNew then sent == [] && Holds(d1, d2, name, more)
             else name in d1 && ContentOf(d2, name) == ContentOf(d1, name) + more
    ensures Holds(d0, d2, name, sent + more)
  {
    var c0 := ContentOf(d0, name);
    if isNew {
      assert [] + more == more && c0 + [] == c0;
    } else {
      assert (c0 + sent) + more == c0 + (sent + more);
    }
  }

  /** A period that begins now has had no writes before. */
  lemma {:induction false} NothingSentYet(c: Config, start: Time, calls: seq<Call>, last: Time, now: Time)
    requires !c.rotation.Never? && Usable(c, start) && AllUsable(c, calls) && Usable(c, last) && Usable(c, now)
    requires Ordered(start, calls) && LastTime(start, calls).Timestamp() <= last.Timestamp() <= now.Timestamp()
    requires RoundDate(c.rotation, last) != RoundDate(c.rotation, now)
    ensures SentTo(c, start, calls, JoinDate(c, now)) == []
  {
    if calls != [] {
      NothingSentYet(c, start, calls[..|calls| - 1], last, now);
      SameNameIffSamePeriod(c, last, now);
      PeriodsDoNotReturn(c, Used(c, start, calls), last, now);
    }
  }

  lemma PeriodsDoNotReturn(c: Config, t: Time, u: Time, v: Time)
    requires !c.rotation.Never? && Usable(c, t) && Usable(c, u) && Usable(c, v)
    requires t.Timestamp() <= u.Timestamp() <= v.Timestamp() && JoinDate(c, u) != JoinDate(c, v)
    ensures JoinDate(c, t) != JoinDate(c, v)
  {
    RoundIsMonotone(c.rotation, t, u);
    RoundIsMonotone(c.rotation, u, v);
    SameNameIffSamePeriod(c, t, v);
    SameNameIffSamePeriod(c, u, v);
    RoundIsFloor(c.rotation, u);
    RoundIsFloor(c.rotation, v);
    if RoundDate(c.rotation, t) == RoundDate(c.rotation, v) {
      TimestampInjective(RoundDate(c.rotation, u), RoundDate(c.rotation, v));
    }
  }

  // ----- Whether the file of the current period is open -----

  lemma {:induction false} OpenedIsCurrent(c: Config, start: Time, calls: seq<Call>)
    requires !c.rotation.Never? && Usable(c, start) && AllUsable(c, calls) && Ordered(start, calls)
    ensures Opened(c, start, calls) <==>
      RoundDate(c.rotation, Used(c, start, calls)) == RoundDate(c.rotation, LastTime(start, calls))
  {
    if calls != [] {
      var init, last := calls[..|calls| - 1], calls[|calls| - 1];
      OpenedIsCurrent(c, start, init);
      if Rolls(c, LastTime(start, init), last) {
        var used, before := Used(c, start, init), LastTime(start, init);
        SameNameIffSamePeriod(c, before, last.now);
        PeriodsDoNotReturn(c, used, before, last.now);
        SameNameIffSamePeriod(c, used, last.now);
      }
    }
  }

  /** After any run the file of the current period is open, and has its name, exactly if the last rollover could open it. */
  lemma CurrentFileIsOpenIff(s: Setup, l: Log, start: Time, calls: seq<Call>)
    requires s.Valid() && !s.config.rotation.Never?
    requires InPeriod(s, l, start) && Ordered(start, calls) && AllUsable(s.config, calls)
    ensures InPeriod(s, RunAll(s, l, calls), LastTime(start, calls)) <==> Opened(s.config, start, calls)
  {
    BuffersLandInTheFileInUse(s, l, start, calls, "");
    OpenedIsCurrent(s.config, start, calls);
    SameNameIffSamePeriod(s.config, Used(s.config, start, calls), LastTime(start, calls));
  }

  // ----- Rollovers that succeed -----

  ghost predicate AllOpen(calls: seq<Call>) {
    calls == [] || (AllOpen(calls[..|calls| - 1]) && calls[|calls| - 1].env.openOk)
  }

  /** Everything that was written while `name` was the name of the current period. */
  ghost function WrittenIn(c: Config, calls: seq<Call>, name: string): seq<byte>
    requires AllUsable(c, calls)
  {
    if calls == [] then []
    else
      WrittenIn(c, calls[..|calls| - 1], name)
      + if JoinDate(c, calls[|calls| - 1].now) == name then calls[|calls| - 1].buf else []
  }

  /** The names of the periods that the run enters. */
  ghost function Entered(c: Config, start: Time, calls: seq<Call>): seq<string>
    requires !c.rotation.Never? && AllUsable(c, calls)
  {
    if calls == [] then []
    else
      var init, last := calls[..|calls| - 1], calls[|calls| - 1];
      Entered(c, start, init) + if Rolls(c, LastTime(start, init), last) then [JoinDate(c, last.now)] else []
  }

  lemma {:induction false} AllOpenUsesTheCurrent(c: Config, start: Time, calls: seq<Call>, name: string)
    requires !c.rotation.Never? && Usable(c, start) && AllUsable(c, calls) && Ordered(start, calls) && AllOpen(calls)
    ensures Opened(c, start, calls)
    ensures SentTo(c, start, calls, name) == WrittenIn(c, calls, name)
    ensures OpenedNames(c, start, calls) == Entered(c, start, calls)
  {
    if calls != [] {
      AllOpenUsesTheCurrent(c, start, calls[..|calls| - 1], name);
      OpenedIsCurrent(c, start, calls);
      SameNameIffSamePeriod(c, Used(c, start, calls), LastTime(start, calls));
    }
  }

  /**
   * Over any sequence of writes whose rollovers can open their files, the file of the last period is
   * open, a file is opened once per period entered, and each file ends up with what it held before
   * followed by exactly the buffers written during its period, in order. With pruning this holds of
   * the files that are left; one that was pruned just before its period began holds those alone.
   */
  lemma EveryBufferLandsInItsFile(s: Setup, l: Log, start: Time, calls: seq<Call>, name: string)
    requires s.Valid() && !s.config.rotation.Never?
    requires InPeriod(s, l, start) && Ordered(start, calls) && AllOpen(calls) && AllUsable(s.config, calls)
    ensures
      var l', written := RunAll(s, l, calls), WrittenIn(s.config, calls, name);
      && InPeriod(s, l', LastTime(start, calls))
      && l'.names == l.names + Entered(s.config, start, calls)
      && (s.maxFiles.None? ==> ContentOf(l'.dir, name) == ContentOf(l.dir, name) + written)
      && (name in l'.dir ==> Holds(l.dir, l'.dir, name, written))
  {
    BuffersLandInTheFileInUse(s, l, start, calls, name);
    AllOpenUsesTheCurrent(s.config, start, calls, name);
    CurrentFileIsOpenIff(s, l, start, calls);
  }
}
