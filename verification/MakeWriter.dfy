/**
 * `MakeWriter for RollingFileAppender` (tracing-appender/src/rolling.rs) with any number of
 * threads. One step is one load of `next_date`, one compare-exchange on it, or one refresh of the
 * writer under its write lock. Every thread reads its own clock, which may say anything from 1970 on.
 */
module MakeWriter {
  import opened Calendar
  import opened Rotations

  type Thread = nat

  datatype Pc =
    | Idle
    | Check(now: Time)                // about to call should_rollover
    | Advance(now: Time, seen: int)   // about to call advance_date
    | Refresh(now: Time)              // about to refresh the writer

  /** A successful compare-exchange: who, from which rollover time, to which one. */
  datatype Win = Win(thread: Thread, from: int, to: int)

  /** `wins` and `refreshes` are history. */
  datatype State = State(next: int, threads: map<Thread, Pc>, wins: seq<Win>, refreshes: nat) {
    function Pc(t: Thread): Pc {
      if t in threads then threads[t] else Idle
    }
  }

  ghost predicate Init(r: Rotation, s: State) {
    exists now: Time :: now.Valid() && now.Timestamp() >= 0 && s == State(NextRaw(r, now), map[], [], 0)
  }

  datatype Action = Begin(t: Thread, now: Time) | Step(t: Thread)

  ghost predicate Enabled(s: State, a: Action) {
    match a
    case Begin(t, now) => s.Pc(t).Idle? && now.Valid() && now.Timestamp() >= 0
    case Step(t) => !s.Pc(t).Idle?
  }

  function Perform(r: Rotation, s: State, a: Action): State {
    match a
    case Begin(t, now) => s.(threads := s.threads[t := Check(now)])
    case Step(t) =>
      match s.Pc(t)
      case Idle => s
      case Check(now) =>
        var pc := if s.next != 0 && now.Timestamp() >= s.next then Advance(now, s.next) else Idle;
        s.(threads := s.threads[t := pc])
      case Advance(now, seen) =>
        if s.next == seen
        then State(NextRaw(r, now), s.threads[t := Refresh(now)], s.wins + [Win(t, seen, NextRaw(r, now))], s.refreshes)
        else s.(threads := s.threads[t := Idle])
      case Refresh(now) => s.(threads := s.threads[t := Idle], refreshes := s.refreshes + 1)
  }

  ghost predicate Execution(r: Rotation, states: seq<State>, actions: seq<Action>) {
    && |states| == |actions| + 1
    && Init(r, states[0])
    && forall i :: 0 <= i < |actions| ==>
         Enabled(states[i], actions[i]) && states[i + 1] == Perform(r, states[i], actions[i])
  }

  // ----- The invariant -----

  ghost function Winners(s: State): set<Thread> {
    set t <- s.threads | s.threads[t].Refresh?
  }

  ghost predicate Inv(r: Rotation, s: State) {
    && (r.Never? ==> s.next == 0 && s.wins == [])
    && (forall t :: s.Pc(t).Check? ==> s.Pc(t).now.Valid() && s.Pc(t).now.Timestamp() >= 0)
    && (forall t :: s.Pc(t).Advance? ==>
          s.Pc(t).now.Valid() && s.Pc(t).seen != 0 && s.Pc(t).seen <= s.Pc(t).now.Timestamp() && !r.Never?)
    && (s.wins != [] ==> s.wins[|s.wins| - 1].to == s.next)
    && (forall i :: 0 <= i < |s.wins| ==> s.wins[i].from < s.wins[i].to <= s.next)
    && (forall i, j :: 0 <= i < j < |s.wins| ==> s.wins[i].to <= s.wins[j].from)
    && s.refreshes + |Winners(s)| == |s.wins|
  }

  /** A winner's new rollover time is later than the one it found. */
  lemma WinMovesForward(r: Rotation, s: State, a: Action)
    requires Inv(r, s) && a.Step? && s.Pc(a.t).Advance?
    ensures NextRaw(r, s.Pc(a.t).now) > s.Pc(a.t).seen
  {
    NextIsOnePeriodLater(r, s.Pc(a.t).now);
  }

  lemma WinnersStep(r: Rotation, s: State, s': State, t: Thread)
    requires s'.threads == s.threads[t := s'.Pc(t)]
    ensures |Winners(s')| == |Winners(s)| + (if s'.Pc(t).Refresh? then 1 else 0) - (if s.Pc(t).Refresh? then 1 else 0)
  {
    assert forall u :: u != t ==> (u in Winners(s') <==> u in Winners(s));
    if s'.Pc(t).Refresh? && !s.Pc(t).Refresh? {
      assert Winners(s') == Winners(s) + {t};
    } else if s.Pc(t).Refresh? && !s'.Pc(t).Refresh? {
      assert Winners(s) == Winners(s') + {t};
    } else {
      assert Winners(s') == Winners(s);
    }
  }

  lemma StepKeepsInv(r: Rotation, s: State, a: Action)
    requires Inv(r, s) && Enabled(s, a)
    ensures Inv(r, Perform(r, s, a))
    ensures s.next <= Perform(r, s, a).next
  {
    var s', t := Perform(r, s, a), a.t;
    WinnersStep(r, s, s', t);
    if a.Step? && s.Pc(t).Advance? && s.next == s.Pc(t).seen {
      WinMovesForward(r, s, a);
      WinKeepsInv(r, s, t, NextRaw(r, s.Pc(t).now));
    } else {
      assert forall u :: u != t ==> s'.Pc(u) == s.Pc(u);
    }
  }

  lemma WinKeepsInv(r: Rotation, s: State, t: Thread, next: int)
    requires Inv(r, s) && s.Pc(t).Advance? && s.next == s.Pc(t).seen < next
    ensures
      var s' := State(next, s.threads[t := Refresh(s.Pc(t).now)], s.wins + [Win(t, s.next, next)], s.refreshes);
      Inv(r, s')
  {
    var s' := State(next, s.threads[t := Refresh(s.Pc(t).now)], s.wins + [Win(t, s.next, next)], s.refreshes);
    WinnersStep(r, s, s', t);
    assert forall u :: u != t ==> s'.Pc(u) == s.Pc(u);
  }

  lemma {:induction false} InvHolds(r: Rotation, states: seq<State>, actions: seq<Action>, i: nat)
    requires Execution(r, states, actions) && i < |states|
    ensures Inv(r, states[i])
  {
    if i == 0 {
      assert Winners(states[0]) == {};
    } else {
      InvHolds(r, states, actions, i - 1);
      StepKeepsInv(r, states[i - 1], actions[i - 1]);
    }
  }

  // ----- Every execution -----

  /**
   * However the threads' clocks disagree, each successful compare-exchange moves `next_date`
   * strictly forward, so no rollover time is ever won twice, and the writer is refreshed at most
   * once per win (exactly once when no thread is between the two).
   */
  lemma EachRolloverIsWonOnce(r: Rotation, states: seq<State>, actions: seq<Action>, i: nat)
    requires Execution(r, states, actions) && i < |states|
    ensures
      var s := states[i];
      && (forall j :: 0 <= j < |s.wins| ==> s.wins[j].from < s.wins[j].to)
      && (forall j, k :: 0 <= j < k < |s.wins| ==> s.wins[j].from < s.wins[k].from)
      && s.refreshes <= |s.wins|
      && ((forall t :: s.Pc(t).Idle?) ==> s.refreshes == |s.wins|)
      && (r.Never? ==> s.refreshes == 0)
  {
    InvHolds(r, states, actions, i);
    var s := states[i];
    if forall t :: s.Pc(t).Idle? {
      forall t | t in s.threads ensures !s.threads[t].Refresh? {
        assert s.Pc(t).Idle?;
      }
      assert Winners(s) == {};
    }
  }

  /** `next_date` never goes back, and changes exactly at a win. */
  lemma {:induction false} NextNeverGoesBack(r: Rotation, states: seq<State>, actions: seq<Action>, i: nat, j: nat)
    requires Execution(r, states, actions) && i <= j < |states|
    ensures states[i].next <= states[j].next && states[i].wins <= states[j].wins
    ensures states[i].next == states[j].next <==> states[i].wins == states[j].wins
  {
    if i < j {
      NextNeverGoesBack(r, states, actions, i, j - 1);
      InvHolds(r, states, actions, j - 1);
      var s, a := states[j - 1], actions[j - 1];
      StepKeepsInv(r, s, a);
      WinMovesNext(r, s, a);
    }
  }

  lemma WinMovesNext(r: Rotation, s: State, a: Action)
    requires Inv(r, s) && Enabled(s, a)
    ensures
      var s' := Perform(r, s, a);
      (s'.next == s.next && s'.wins == s.wins) || (s'.next > s.next && s.wins < s'.wins)
  {
    if a.Step? && s.Pc(a.t).Advance? {
      NextIsOnePeriodLater(r, s.Pc(a.t).now);
    }
  }

  lemma {:induction false} OthersLeaveTheCall(r: Rotation, states: seq<State>, actions: seq<Action>, i: nat, j: nat, t: Thread)
    requires Execution(r, states, actions) && i <= j < |states|
    requires forall k :: i <= k < j ==> actions[k].t != t
    ensures states[j].Pc(t) == states[i].Pc(t)
  {
    if i < j {
      OthersLeaveTheCall(r, states, actions, i, j - 1, t);
    }
  }

  /** A call whose clock is not past the rollover time it finds, or that finds none, ends at once. */
  lemma NotDueIsNotTried(r: Rotation, states: seq<State>, actions: seq<Action>, i: nat, j: nat, t: Thread, now: Time)
    requires Execution(r, states, actions) && i < j < |actions|
    requires actions[i] == Begin(t, now) && actions[j] == Step(t) && forall m :: i < m < j ==> actions[m].t != t
    ensures
      var next := states[j].next;
      if next == 0 || now.Timestamp() < next then states[j + 1].Pc(t) == Idle && states[j + 1].wins == states[j].wins
      else states[j + 1].Pc(t) == Advance(now, next)
  {
    OthersLeaveTheCall(r, states, actions, i + 1, j, t);
  }

  /**
   * A due rollover is won: between the check of a call whose clock is past the rollover time and the end
   * of its compare-exchange some thread has moved it on. If it was this one, the writer is refreshed
   * next, and the new rollover time is past its clock.
   */
  lemma DueRolloverIsWon(r: Rotation, states: seq<State>, actions: seq<Action>, i: nat, j: nat, k: nat, t: Thread, now: Time)
    requires Execution(r, states, actions) && i < j < k < |actions|
    requires actions[i] == Begin(t, now) && actions[j] == Step(t) && actions[k] == Step(t)
    requires forall m :: i < m < k && m != j ==> actions[m].t != t
    requires states[j].next != 0 && now.Timestamp() >= states[j].next
    ensures states[j].wins < states[k + 1].wins && states[j].next < states[k + 1].next
    ensures if states[k].next == states[j].next
            then states[k + 1].Pc(t) == Refresh(now) && states[k + 1].next > now.Timestamp()
            else states[k + 1].Pc(t) == Idle && states[k + 1].next == states[k].next
  {
    NotDueIsNotTried(r, states, actions, i, j, t, now);
    OthersLeaveTheCall(r, states, actions, j + 1, k, t);
    InvHolds(r, states, actions, k);
    NextNeverGoesBack(r, states, actions, j, k);
    WinMovesNext(r, states[k], actions[k]);
    NextIsOnePeriodLater(r, now);
  }

  /** The winner's next step refreshes the writer. */
  lemma WinnerRefreshes(r: Rotation, states: seq<State>, actions: seq<Action>, i: nat, t: Thread)
    requires Execution(r, states, actions) && i < |actions| && actions[i] == Step(t) && states[i].Pc(t).Refresh?
    ensures states[i + 1].refreshes == states[i].refreshes + 1 && states[i + 1].Pc(t) == Idle
  {
  }
}
