/**
 * The flamegraph layer of tracing-flame/src/lib.rs: at every enter and exit of a span it writes one
 * folded stack with the nanoseconds since the thread's last event.
 */
module Flame {
  import opened Options
  import opened Bytes

  const SPACE: byte := 32
  const SEMICOLON: byte := 59

  datatype Config = Config(emptySamples: bool, threadsCollapsed: bool, modulePath: bool, fileAndLine: bool)

  datatype Metadata = Metadata(name: seq<byte>, modulePath: Option<seq<byte>>, file: Option<seq<byte>>, line: Option<nat>)

  /** A span in the registry, with the parent it was created under. */
  datatype Span = Span(id: nat, meta: Metadata, parent: Option<Span>)

  /** `scope().from_root()`. */
  function Scope(s: Span): seq<Span> {
    (if s.parent.None? then [] else Scope(s.parent.value)) + [s]
  }

  /** The scope of the parent, if there is one. */
  function ParentScope(s: Span): seq<Span> {
    if s.parent.None? then [] else Scope(s.parent.value)
  }

  // ----- Lines -----

  /** `write`: how one span appears in a stack. */
  function SpanText(c: Config, m: Metadata): seq<byte> {
    (if c.modulePath && m.modulePath.Some? then m.modulePath.value + Ascii("::") else [])
    + m.name
    + (if c.fileAndLine && m.file.Some? then Ascii(":") + m.file.value else [])
    + (if c.fileAndLine && m.line.Some? then Ascii(":") + Decimal(m.line.value) else [])
  }

  /** The folded stack: the thread, then every span from the root, separated by semicolons. */
  function Folded(c: Config, thread: seq<byte>, stack: seq<Span>): seq<byte> {
    if stack == [] then (if c.threadsCollapsed then Ascii("all-threads") else thread)
    else Folded(c, thread, stack[..|stack| - 1]) + [SEMICOLON] + SpanText(c, stack[|stack| - 1].meta)
  }

  function Line(folded: seq<byte>, nanos: nat): seq<byte> {
    folded + [SPACE] + Decimal(nanos)
  }

  datatype Event = Enter(span: Span, now: int) | Exit(span: Span, now: int)

  function Elapsed(from: int, to: int): nat {
    if from <= to then to - from else 0
  }

  /** What the layer writes for one event, without looking at the thread's stack. */
  function LinesFor(c: Config, thread: seq<byte>, last: int, e: Event): seq<seq<byte>> {
    match e
    case Enter(s, now) =>
      if !c.emptySamples && s.parent.None? then []
      else [Line(Folded(c, thread, ParentScope(s)), Elapsed(last, now))]
    case Exit(s, now) => [Line(Folded(c, thread, Scope(s)), Elapsed(last, now))]
  }

  /** The thread-locals `LAST_EVENT` and `THREAD_NAME`. */
  class ThreadLocals {
    const name: seq<byte>
    var lastEvent: int

    constructor (name: seq<byte>, start: int)
      ensures this.name == name && lastEvent == start
    {
      this.name := name;
      lastEvent := start;
    }

    method TimeSinceLastEvent(now: int) returns (nanos: nat)
      modifies this
      ensures lastEvent == now && nanos == Elapsed(old(lastEvent), now)
    {
      nanos := Elapsed(lastEvent, now);
      lastEvent := now;
    }
  }

  class FlameLayer {
    const config: Config
    var out: seq<seq<byte>>

    constructor (config: Config)
      ensures this.config == config && out == []
    {
      this.config := config;
      out := [];
    }

    /** The stack's text, built span by span. */
    method Fold(thread: ThreadLocals, scope: seq<Span>) returns (stack: seq<byte>)
      ensures stack == Folded(config, thread.name, scope)
    {
      stack := if config.threadsCollapsed then Ascii("all-threads") else thread.name;
      for i := 0 to |scope|
        invariant stack == Folded(config, thread.name, scope[..i])
      {
        assert scope[..i + 1][..i] == scope[..i];
        stack := stack + [SEMICOLON] + SpanText(config, scope[i].meta);
      }
      assert scope[..|scope|] == scope;
    }

    method OnEnter(thread: ThreadLocals, span: Span, now: int)
      modifies this, thread
      ensures thread.lastEvent == now
      ensures out == old(out) + LinesFor(config, thread.name, old(thread.lastEvent), Enter(span, now))
    {
      var samples := thread.TimeSinceLastEvent(now);
      if !config.emptySamples && span.parent.None? {
        return;
      }
      var scope := if span.parent.Some? then Scope(span.parent.value) else [];
      var stack := Fold(thread, scope);
      out := out + [stack + [SPACE] + Decimal(samples)];
    }

    /** A thread that is panicking only moves its clock on. */
    method OnExit(thread: ThreadLocals, span: Span, now: int, panicking: bool)
      modifies this, thread
      ensures thread.lastEvent == now
      ensures panicking ==> out == old(out)
      ensures !panicking ==> out == old(out) + LinesFor(config, thread.name, old(thread.lastEvent), Exit(span, now))
    {
      var samples := thread.TimeSinceLastEvent(now);
      if panicking {
        return;
      }
      var stack := Fold(thread, Scope(span));
      out := out + [stack + [SPACE] + Decimal(samples)];
    }
  }

  // ----- Runs of one thread -----

  function LastTime(start: int, events: seq<Event>): int {
    if events == [] then start else events[|events| - 1].now
  }

  /** Everything the layer writes for a thread's events, from the moment `start`. */
  function Output(c: Config, thread: seq<byte>, start: int, events: seq<Event>): seq<seq<byte>> {
    if events == [] then []
    else
      var earlier := events[..|events| - 1];
      Output(c, thread, start, earlier) + LinesFor(c, thread, LastTime(start, earlier), events[|events| - 1])
  }

  /** The spans entered and not yet exited, outermost first. */
  function StackAfter(events: seq<Event>): seq<Span> {
    if events == [] then []
    else
      var e, stack := events[|events| - 1], StackAfter(events[..|events| - 1]);
      if e.Enter? then stack + [e.span] else if stack == [] then [] else stack[..|stack| - 1]
  }

  function Top(stack: seq<Span>): Option<Span> {
    if stack == [] then None else Some(stack[|stack| - 1])
  }

  /** Spans are exited in the reverse order, and each has the contextual parent: the innermost span
      at the time it is entered. */
  predicate WellNested(events: seq<Event>) {
    events == []
    || var e, stack := events[|events| - 1], StackAfter(events[..|events| - 1]);
       && WellNested(events[..|events| - 1])
       && (if e.Enter? then e.span.parent == Top(stack) else Some(e.span) == Top(stack))
  }

  predicate Ordered(start: int, events: seq<Event>) {
    events == []
    || (Ordered(start, events[..|events| - 1])
        && LastTime(start, events[..|events| - 1]) <= events[|events| - 1].now)
  }

  /** The stack in force from the nanosecond `x` to the next. */
  function ActiveAt(events: seq<Event>, x: int): seq<Span> {
    if events == [] then []
    else if events[|events| - 1].now <= x then StackAfter(events)
    else ActiveAt(events[..|events| - 1], x)
  }

  /** The stacks the layer is asked to report. */
  predicate Reported(c: Config, stack: seq<Span>) {
    c.emptySamples || stack != []
  }

  // ----- Each interval is charged to the active stack -----

  /** Each span on the stack is the parent of the next. */
  predicate Chained(stack: seq<Span>) {
    stack == []
    || (Chained(stack[..|stack| - 1]) && stack[|stack| - 1].parent == Top(stack[..|stack| - 1]))
  }

  lemma {:induction false} StackIsChained(events: seq<Event>)
    requires WellNested(events)
    ensures Chained(StackAfter(events))
  {
    if events != [] {
      var e, stack := events[|events| - 1], StackAfter(events[..|events| - 1]);
      StackIsChained(events[..|events| - 1]);
      assert (stack + [e.span])[..|stack|] == stack;
    }
  }

  lemma {:induction false} ScopeOfTop(stack: seq<Span>)
    requires Chained(stack) && stack != []
    ensures Scope(stack[|stack| - 1]) == stack
  {
    var below := stack[..|stack| - 1];
    if below != [] {
      ScopeOfTop(below);
    }
    assert stack == below + [stack[|stack| - 1]];
  }

  /** The line for an event is about the stack in force before it, which the layer reads off the
      span's parents; it is left out exactly when that stack is not to be reported. */
  lemma EventIsChargedToTheStack(c: Config, thread: seq<byte>, last: int, events: seq<Event>)
    requires WellNested(events) && events != []
    ensures
      var e, stack := events[|events| - 1], StackAfter(events[..|events| - 1]);
      LinesFor(c, thread, last, e)
      == if Reported(c, stack) then [Line(Folded(c, thread, stack), Elapsed(last, e.now))] else []
  {
    var stack := StackAfter(events[..|events| - 1]);
    StackIsChained(events[..|events| - 1]);
    if stack != [] {
      ScopeOfTop(stack);
    }
  }

  // ----- Reading the output back -----

  function AfterLastSpace(line: seq<byte>): (digits: seq<byte>)
    ensures |digits| <= |line|
  {
    if line == [] || line[|line| - 1] == SPACE then []
    else AfterLastSpace(line[..|line| - 1]) + [line[|line| - 1]]
  }

  function SampleOf(line: seq<byte>): int {
    FromDecimal(AfterLastSpace(line))
  }

  function StackOf(line: seq<byte>): seq<byte> {
    var n := |line| - |AfterLastSpace(line)| - 1;
    if n < 0 then [] else line[..n]
  }

  lemma {:induction false} AfterSpace(text: seq<byte>, digits: seq<byte>)
    requires SPACE !in digits
    ensures AfterLastSpace(text + [SPACE] + digits) == digits
  {
    var line := text + [SPACE] + digits;
    if digits != [] {
      var n := |digits| - 1;
      AfterSpace(text, digits[..n]);
      assert line[..|line| - 1] == text + [SPACE] + digits[..n];
      assert digits == digits[..n] + [digits[n]];
    }
  }

  lemma LineRoundTrip(folded: seq<byte>, nanos: nat)
    ensures SampleOf(Line(folded, nanos)) == nanos && StackOf(Line(folded, nanos)) == folded
  {
    DecimalRoundTrip(nanos);
    AfterSpace(folded, Decimal(nanos));
  }

  /** The parts between the semicolons. */
  function Split(text: seq<byte>): (parts: seq<seq<byte>>)
    ensures parts != []
  {
    if text == [] then [[]]
    else
      var parts, b := Split(text[..|text| - 1]), text[|text| - 1];
      if b == SEMICOLON then parts + [[]] else parts[..|parts| - 1] + [parts[|parts| - 1] + [b]]
  }

  lemma SplitOne(text: seq<byte>, b: byte)
    ensures
      var parts := Split(text);
      Split(text + [b]) == if b == SEMICOLON then parts + [[]] else parts[..|parts| - 1] + [parts[|parts| - 1] + [b]]
  {
    assert (text + [b])[..|text|] == text;
  }

  lemma {:induction false} SplitAppend(text: seq<byte>, part: seq<byte>)
    requires SEMICOLON !in part
    ensures Split(text + [SEMICOLON] + part) == Split(text) + [part]
  {
    if part == [] {
      assert text + [SEMICOLON] + part == text + [SEMICOLON];
      SplitOne(text, SEMICOLON);
    } else {
      var init, b := part[..|part| - 1], part[|part| - 1];
      assert part == init + [b];
      SplitAppend(text, init);
      assert text + [SEMICOLON] + part == (text + [SEMICOLON] + init) + [b];
      SplitOne(text + [SEMICOLON] + init, b);
      LastPart(Split(text), init, b);
    }
  }

  lemma LastPart(parts: seq<seq<byte>>, part: seq<byte>, b: byte)
    ensures
      var all := parts + [part];
      all[..|all| - 1] + [all[|all| - 1] + [b]] == parts + [part + [b]]
  {
  }

  lemma {:induction false} SplitWhole(part: seq<byte>)
    requires SEMICOLON !in part
    ensures Split(part) == [part]
  {
    if part != [] {
      SplitWhole(part[..|part| - 1]);
      assert part == part[..|part| - 1] + [part[|part| - 1]];
    }
  }

  /** How the spans of a stack appear, from the root. */
  function Texts(c: Config, stack: seq<Span>): (texts: seq<seq<byte>>)
    ensures |texts| == |stack|
    ensures forall k :: 0 <= k < |stack| ==> texts[k] == SpanText(c, stack[k].meta)
  {
    if stack == [] then [] else Texts(c, stack[..|stack| - 1]) + [SpanText(c, stack[|stack| - 1].meta)]
  }

  /** A stack's text shows the thread's name, or the common one, and then the spans in order from the root,
      if they have no semicolons themselves. */
  lemma {:induction false} FoldedRoundTrip(c: Config, thread: seq<byte>, stack: seq<Span>)
    requires SEMICOLON !in thread
    requires forall k :: 0 <= k < |stack| ==> SEMICOLON !in Texts(c, stack)[k]
    ensures Split(Folded(c, thread, stack)) == [if c.threadsCollapsed then Ascii("all-threads") else thread] + Texts(c, stack)
  {
    if stack == [] {
      RootIsPlain(c, thread);
    } else {
      var n := |stack| - 1;
      var front, text := Texts(c, stack[..n]), SpanText(c, stack[n].meta);
      assert forall k :: 0 <= k < n ==> front[k] == Texts(c, stack)[k];
      assert text == Texts(c, stack)[n];
      FoldedRoundTrip(c, thread, stack[..n]);
      SplitAppend(Folded(c, thread, stack[..n]), text);
    }
  }

  lemma RootIsPlain(c: Config, thread: seq<byte>)
    requires SEMICOLON !in thread
    ensures Split(Folded(c, thread, [])) == [if c.threadsCollapsed then Ascii("all-threads") else thread]
  {
    SplitWhole(Folded(c, thread, []));
  }

  /** A span's text is its name, behind the module path and two colons, before a colon and the file, and
      a colon and the line, each if it is wanted and known. */
  lemma SpanTextReads(c: Config, m: Metadata)
    ensures !(c.modulePath && m.modulePath.Some?) && !c.fileAndLine ==> SpanText(c, m) == m.name
    ensures c.modulePath && m.modulePath.Some? ==>
              m.modulePath.value + [58, 58] + m.name <= SpanText(c, m)
    ensures !(c.modulePath && m.modulePath.Some?) ==> m.name <= SpanText(c, m)
    ensures
      var before := (if c.modulePath && m.modulePath.Some? then |m.modulePath.value| + 2 else 0) + |m.name|;
      var rest := if before <= |SpanText(c, m)| then SpanText(c, m)[before..] else [];
      && (c.fileAndLine && m.file.Some? && m.line.Some? ==> rest == [58] + m.file.value + [58] + Decimal(m.line.value))
      && (c.fileAndLine && m.file.Some? && m.line.None? ==> rest == [58] + m.file.value)
      && (c.fileAndLine && m.file.None? && m.line.Some? ==> rest == [58] + Decimal(m.line.value))
      && (!c.fileAndLine || (m.file.None? && m.line.None?) ==> rest == [])
  {
    assert Ascii("::") == [58, 58] && Ascii(":") == [58];
  }

  /** The samples of the lines whose stack is selected, added up. */
  function Total(lines: seq<seq<byte>>, select: seq<byte> -> bool): int {
    if lines == [] then 0
    else
      var line := lines[|lines| - 1];
      Total(lines[..|lines| - 1], select) + (if select(StackOf(line)) then SampleOf(line) else 0)
  }

  lemma TotalGrows(lines: seq<seq<byte>>, folded: seq<byte>, nanos: nat, select: seq<byte> -> bool)
    ensures Total(lines + [Line(folded, nanos)], select) == Total(lines, select) + (if select(folded) then nanos else 0)
  {
    LineRoundTrip(folded, nanos);
    assert (lines + [Line(folded, nanos)])[..|lines|] == lines;
  }

  predicate Every(folded: seq<byte>) {
    true
  }

  // ----- The samples measure time -----

  /** The nanoseconds from `start` to the last event during which a stack with the property was in force. */
  ghost function InstantsWhere(start: int, events: seq<Event>, p: seq<Span> -> bool): set<int> {
    set x: int | start <= x < LastTime(start, events) && p(ActiveAt(events, x))
  }

  /** Reported, and its folded form is selected. */
  function Wanted(c: Config, thread: seq<byte>, select: seq<byte> -> bool): seq<Span> -> bool {
    stack => Reported(c, stack) && select(Folded(c, thread, stack))
  }

  ghost function Interval(lo: int, hi: int): (xs: set<int>)
    ensures forall x :: x in xs <==> lo <= x < hi
    ensures |xs| == Elapsed(lo, hi)
    decreases Elapsed(lo, hi)
  {
    if lo >= hi then {} else Interval(lo, hi - 1) + {hi - 1}
  }

  /** One more event adds the interval before it, if the stack in force then has the property. */
  lemma InstantsGrow(start: int, events: seq<Event>, p: seq<Span> -> bool)
    requires Ordered(start, events) && events != []
    ensures
      var earlier, e := events[..|events| - 1], events[|events| - 1];
      |InstantsWhere(start, events, p)|
      == |InstantsWhere(start, earlier, p)| + (if p(StackAfter(earlier)) then e.now - LastTime(start, earlier) else 0)
  {
    var earlier, e := events[..|events| - 1], events[|events| - 1];
    var last, stack := LastTime(start, earlier), StackAfter(earlier);
    StartIsFirst(start, earlier);
    var before, after := InstantsWhere(start, earlier, p), InstantsWhere(start, events, p);
    var added := if p(stack) then Interval(last, e.now) else {};
    forall x ensures x in after <==> x in before || x in added {
      ActiveUntil(start, events, x);
    }
    assert after == before + added;
    assert before !! added;
  }

  /** Before the last event nothing depends on it; since the one before, its stack is in force. */
  lemma ActiveUntil(start: int, events: seq<Event>, x: int)
    requires events != []
    ensures
      var earlier, e := events[..|events| - 1], events[|events| - 1];
      && (x < e.now ==> ActiveAt(events, x) == ActiveAt(earlier, x))
      && (LastTime(start, earlier) <= x ==> ActiveAt(earlier, x) == StackAfter(earlier))
  {
  }

  lemma {:induction false} StartIsFirst(start: int, events: seq<Event>)
    requires Ordered(start, events)
    ensures start <= LastTime(start, events)
  {
    if events != [] {
      StartIsFirst(start, events[..|events| - 1]);
    }
  }

  /**
   * Read back from the output, the samples of any selection of folded stacks add up to exactly the
   * time during which the thread's active stack was one of them, for every well-nested run. With a
   * selection of one stack: each interval is charged to the stack in force, and to no other.
   */
  lemma {:induction false} SamplesMeasureTime(c: Config, thread: seq<byte>, start: int, events: seq<Event>, select: seq<byte> -> bool)
    requires WellNested(events) && Ordered(start, events)
    ensures Total(Output(c, thread, start, events), select) == |InstantsWhere(start, events, Wanted(c, thread, select))|
  {
    if events == [] {
      assert InstantsWhere(start, events, Wanted(c, thread, select)) == {};
    } else {
      var earlier, e := events[..|events| - 1], events[|events| - 1];
      var last, stack := LastTime(start, earlier), StackAfter(earlier);
      SamplesMeasureTime(c, thread, start, earlier, select);
      EventIsChargedToTheStack(c, thread, last, events);
      InstantsGrow(start, events, Wanted(c, thread, select));
      TotalGrows(Output(c, thread, start, earlier), Folded(c, thread, stack), e.now - last, select);
      assert Output(c, thread, start, earlier) + [] == Output(c, thread, start, earlier);
    }
  }

  /** The sum of all samples is the time during which a reported stack was in force. */
  lemma AllSamples(c: Config, thread: seq<byte>, start: int, events: seq<Event>, instants: set<int>)
    requires WellNested(events) && Ordered(start, events)
    requires forall x :: x in instants <==> start <= x < LastTime(start, events) && Reported(c, ActiveAt(events, x))
    ensures Total(Output(c, thread, start, events), Every) == |instants|
  {
    var wanted := Wanted(c, thread, Every);
    SamplesMeasureTime(c, thread, start, events, Every);
    forall stack ensures wanted(stack) == Reported(c, stack) {
      assert Every(Folded(c, thread, stack));
    }
    assert InstantsWhere(start, events, wanted) == instants;
  }

  /** With empty samples the output accounts for all the time up to the last event. */
  lemma AllTimeIsCharged(c: Config, thread: seq<byte>, start: int, events: seq<Event>)
    requires WellNested(events) && Ordered(start, events) && c.emptySamples
    ensures Total(Output(c, thread, start, events), Every) == LastTime(start, events) - start
  {
    StartIsFirst(start, events);
    AllSamples(c, thread, start, events, Interval(start, LastTime(start, events)));
  }

  /** The nanoseconds during which the thread was inside some span. */
  ghost function InsideSpans(start: int, events: seq<Event>): set<int> {
    set x: int | start <= x < LastTime(start, events) && ActiveAt(events, x) != []
  }

  /** Without them, for exactly the time spent inside some span. */
  lemma TimeInsideSpansIsCharged(c: Config, thread: seq<byte>, start: int, events: seq<Event>)
    requires WellNested(events) && Ordered(start, events) && !c.emptySamples
    ensures Total(Output(c, thread, start, events), Every) == |InsideSpans(start, events)|
  {
    AllSamples(c, thread, start, events, InsideSpans(start, events));
  }
}
