/**
 * `Interest` and the operator that combines the answers of several subscribers
 * (tracing-core/src/subscriber.rs), and the `LevelFilter` encoding of the global
 * maximum level (tracing-core/src/metadata.rs).
 */
module Interests {

  datatype Interest = Never | Sometimes | Always {
    /** Equal opinions propagate; different opinions mean "ask every time". */
    function And(rhs: Interest): Interest {
      if this == rhs then this else Sometimes
    }
  }

  /** The cached answer for the given individual answers; nobody to ask means `Never`. */
  function Common(answers: seq<Interest>): Interest {
    if |answers| == 0 then Never
    else if |answers| == 1 then answers[0]
    else Common(answers[..|answers| - 1]).And(answers[|answers| - 1])
  }

  lemma AndLaws(a: Interest, b: Interest, c: Interest)
    ensures a.And(b) == b.And(a)
    ensures a.And(b).And(c) == a.And(b.And(c))
    ensures a.And(a) == a
    ensures a.And(Sometimes) == Sometimes
  {
  }

  lemma CommonAppend(answers: seq<Interest>, x: Interest)
    ensures Common(answers + [x]) == if answers == [] then x else Common(answers).And(x)
  {
    var all := answers + [x];
    if answers != [] {
      assert all[..|all| - 1] == answers;
    }
  }

  /** The three cached values are exactly the three "for all subscribers" facts. */
  lemma {:induction false} CommonMeaning(answers: seq<Interest>)
    ensures Common(answers) == Never <==> (forall x <- answers :: x == Never)
    ensures Common(answers) == Always <==> answers != [] && (forall x <- answers :: x == Always)
  {
    if |answers| > 1 {
      var init, last := answers[..|answers| - 1], answers[|answers| - 1];
      CommonMeaning(init);
      assert answers == init + [last];
      assert last in answers && init[0] in init && init[0] in answers;
      assert forall x :: x in answers <==> x in init || x == last;
    } else if |answers| == 1 {
      assert answers[0] in answers;
    }
  }

  /** The order in which subscribers are asked, and asking one twice, do not matter. */
  lemma CommonIgnoresOrder(xs: seq<Interest>, ys: seq<Interest>)
    requires (set x <- xs) == (set y <- ys)
    ensures Common(xs) == Common(ys)
  {
    CommonMeaning(xs);
    CommonMeaning(ys);
    var seen := set x <- xs;
    assert forall x :: x in xs <==> x in seen;
    assert forall y :: y in ys <==> y in seen;
    assert xs == [] <==> ys == [] by {
      if xs != [] { assert xs[0] in ys; }
      if ys != [] { assert ys[0] in xs; }
    }
  }

  /** Dropping subscribers never invalidates a cached `Never` or `Always`. */
  lemma CommonSurvivesDrops(xs: seq<Interest>, remaining: seq<Interest>)
    requires forall x <- remaining :: x in xs
    ensures Common(xs) == Never ==> Common(remaining) == Never
    ensures Common(xs) == Always && remaining != [] ==> Common(remaining) == Always
  {
    CommonMeaning(xs);
    CommonMeaning(remaining);
  }
}

module LevelFilters {

  /** Discriminants run backwards: the most verbose level has the smallest number. */
  datatype Level = Trace | Debug | Info | Warn | Error {
    function AsUsize(): nat {
      match this
      case Trace => 0
      case Debug => 1
      case Info => 2
      case Warn => 3
      case Error => 4
    }
  }

  const OFF_USIZE: nat := 5

  datatype LevelFilter = Off | UpTo(level: Level) {
    function AsUsize(): nat {
      match this
      case Off => OFF_USIZE
      case UpTo(level) => level.AsUsize()
    }

    /** `self > other` as the source compares it: the integer comparison with its sides swapped. */
    predicate Exceeds(other: LevelFilter) {
      other.AsUsize() > AsUsize()
    }

    /** `self >= other`: every level that `other` lets through, `self` lets through as well. */
    predicate AtLeast(other: LevelFilter) {
      other.AsUsize() >= AsUsize()
    }

    /** `level <= self`, the test that a span or event macro makes. */
    predicate Passes(level: Level) {
      AsUsize() <= level.AsUsize()
    }
  }

  /** From the least verbose level to the most. */
  function Verbosity(level: Level): nat {
    match level
    case Error => 1
    case Warn => 2
    case Info => 3
    case Debug => 4
    case Trace => 5
  }

  /** A filter lets through the levels up to its own verbosity, `Off` none; and filters are ordered by
      what they let through, although their numbers run the other way. */
  lemma OrderIsInclusion(f: LevelFilter, g: LevelFilter, level: Level)
    ensures f.Passes(level) <==> f.UpTo? && Verbosity(level) <= Verbosity(f.level)
    ensures f.AtLeast(g) <==> forall l: Level :: g.Passes(l) ==> f.Passes(l)
    ensures f.Exceeds(g) <==> f.AtLeast(g) && f != g
  {
    if !f.AtLeast(g) {
      assert g.Passes(g.level) && !f.Passes(g.level);
    }
  }

  /** `LevelFilter::current` on the raw value of `MAX_LEVEL`. */
  function Current(raw: nat): LevelFilter
    requires raw <= OFF_USIZE
  {
    match raw
    case 0 => UpTo(Trace)
    case 1 => UpTo(Debug)
    case 2 => UpTo(Info)
    case 3 => UpTo(Warn)
    case 4 => UpTo(Error)
    case _ => Off
  }

  /** What `set_max` stores is what `current` reads back, and the order is the order on filters. */
  lemma SetMaxThenCurrent(f: LevelFilter, raw: nat)
    requires raw <= OFF_USIZE
    ensures f.AsUsize() <= OFF_USIZE && Current(f.AsUsize()) == f
    ensures Current(raw).AsUsize() == raw
  {
    match f
    case Off =>
    case UpTo(l) => match l { case Trace => case Debug => case Info => case Warn => case Error => }
  }

  /** The larger of two filters, as the loop in `rebuild_interest` keeps it. */
  function Larger(max: LevelFilter, hint: LevelFilter): LevelFilter {
    if hint.Exceeds(max) then hint else max
  }

  function Largest(hints: seq<LevelFilter>): LevelFilter {
    if |hints| == 0 then Off
    else Larger(Largest(hints[..|hints| - 1]), hints[|hints| - 1])
  }

  lemma LargestAppend(hints: seq<LevelFilter>, h: LevelFilter)
    ensures Largest(hints + [h]) == Larger(Largest(hints), h)
  {
    assert (hints + [h])[..|hints|] == hints;
  }

  /** The largest hint is the exact union: a level passes it iff it passes some hint. */
  lemma {:induction false} LargestMeaning(hints: seq<LevelFilter>, level: Level)
    ensures Largest(hints).Passes(level) <==> exists h <- hints :: h.Passes(level)
    ensures forall h <- hints :: Largest(hints).AtLeast(h)
  {
    if |hints| > 0 {
      var init, last := hints[..|hints| - 1], hints[|hints| - 1];
      LargestMeaning(init, level);
      assert hints == init + [last];
    }
  }
}
