/**
 * The journald layer of tracing-journald/src/lib.rs: the functions that append to a byte buffer,
 * and the layer that keeps one buffer per span and assembles the payload of an event.
 */
module JournalNames {
  import opened Bytes
  import opened JournalProtocol

  const UNDERSCORE: byte := 95
  const DOT: byte := 46

  // The stages of `sanitize_name`

  function DotToUnderscore(name: seq<byte>): seq<byte> {
    seq(|name|, i requires 0 <= i < |name| => if name[i] == DOT then UNDERSCORE else name[i])
  }

  function SkipUnderscores(name: seq<byte>): seq<byte> {
    if name != [] && name[0] == UNDERSCORE then SkipUnderscores(name[1..]) else name
  }

  predicate IsUpper(b: byte) { 65 <= b <= 90 }
  predicate IsLower(b: byte) { 97 <= b <= 122 }
  predicate IsDigit(b: byte) { 48 <= b <= 57 }

  predicate Kept(b: byte) {
    b == UNDERSCORE || IsUpper(b) || IsLower(b) || IsDigit(b)
  }

  function KeepOnly(name: seq<byte>): seq<byte> {
    if name == [] then []
    else if Kept(name[0]) then [name[0]] + KeepOnly(name[1..])
    else KeepOnly(name[1..])
  }

  function Upper(b: byte): byte {
    if IsLower(b) then b - 32 else b
  }

  function Uppercase(name: seq<byte>): seq<byte> {
    seq(|name|, i requires 0 <= i < |name| => Upper(name[i]))
  }

  function Sanitize(name: seq<byte>): seq<byte> {
    Uppercase(KeepOnly(SkipUnderscores(DotToUnderscore(name))))
  }

  // What sanitizing achieves

  /** The bytes journald accepts in a field name. */
  predicate Accepted(b: byte) {
    b == UNDERSCORE || IsUpper(b) || IsDigit(b)
  }

  lemma {:induction false} KeepOnlyKeeps(name: seq<byte>)
    ensures forall b <- KeepOnly(name) :: Kept(b)
    ensures KeepOnly(name) == [] <==> forall b <- name :: !Kept(b)
    ensures (forall b <- name :: Kept(b)) ==> KeepOnly(name) == name
  {
    if name != [] {
      KeepOnlyKeeps(name[1..]);
      assert name == [name[0]] + name[1..];
    }
  }

  /** Whatever the name, only accepted bytes are left, so in particular no newline and no `=`. */
  lemma SanitizedIsAccepted(name: seq<byte>)
    ensures forall b <- Sanitize(name) :: Accepted(b)
    ensures NEWLINE !in Sanitize(name) && EQUALS !in Sanitize(name)
  {
    var kept := KeepOnly(SkipUnderscores(DotToUnderscore(name)));
    KeepOnlyKeeps(SkipUnderscores(DotToUnderscore(name)));
    forall b | b in Sanitize(name) ensures Accepted(b) {
      var i :| 0 <= i < |kept| && b == Upper(kept[i]);
      assert kept[i] in kept;
    }
  }

  /** A name that journald accepts, and that does not start with an underscore, is left alone. */
  lemma SanitizeIsIdentityOnAccepted(name: seq<byte>)
    requires forall b <- name :: Accepted(b)
    requires name != [] ==> name[0] != UNDERSCORE
    ensures Sanitize(name) == name
  {
    assert forall i :: 0 <= i < |name| ==> name[i] in name;
    assert DotToUnderscore(name) == name;
    assert SkipUnderscores(name) == name;
    KeepOnlyKeeps(name);
    assert Uppercase(name) == name;
  }

  /** Names of ASCII letters, digits and underscores change in nothing but the case of their letters. */
  lemma SanitizeChangesOnlyCase(name: seq<byte>)
    requires forall b <- name :: Kept(b)
    requires name != [] ==> name[0] != UNDERSCORE
    ensures |Sanitize(name)| == |name|
    ensures forall i :: 0 <= i < |name| ==>
      Sanitize(name)[i] == if 97 <= name[i] <= 122 then name[i] - 32 else name[i]
  {
    assert forall i :: 0 <= i < |name| ==> name[i] in name;
    assert DotToUnderscore(name) == name;
    KeepOnlyKeeps(name);
  }

  /** What becomes of a byte behind the leading underscores and dots. */
  function Image(b: byte): seq<byte> {
    if b == 46 then [95]
    else if b == 95 || 48 <= b <= 57 || 65 <= b <= 90 then [b]
    else if 97 <= b <= 122 then [b - 32]
    else []
  }

  function Images(name: seq<byte>): seq<byte> {
    if name == [] then [] else Image(name[0]) + Images(name[1..])
  }

  /** The name without its leading underscores and dots. */
  function Unled(name: seq<byte>): seq<byte> {
    if name != [] && (name[0] == 95 || name[0] == 46) then Unled(name[1..]) else name
  }

  lemma {:induction false} SkipIsUnled(name: seq<byte>)
    ensures SkipUnderscores(DotToUnderscore(name)) == DotToUnderscore(Unled(name))
  {
    if name != [] && (name[0] == 95 || name[0] == 46) {
      SkipIsUnled(name[1..]);
      assert DotToUnderscore(name)[1..] == DotToUnderscore(name[1..]);
    }
  }

  lemma {:induction false} FilterIsImages(name: seq<byte>)
    ensures Uppercase(KeepOnly(DotToUnderscore(name))) == Images(name)
  {
    if name != [] {
      FilterIsImages(name[1..]);
      var rest := DotToUnderscore(name[1..]);
      assert DotToUnderscore(name)[1..] == rest;
      UppercaseFirst(DotToUnderscore(name)[0], KeepOnly(rest));
    }
  }

  lemma UppercaseFirst(b: byte, rest: seq<byte>)
    ensures Uppercase([b] + rest) == [Upper(b)] + Uppercase(rest)
  {
  }

  /** Sanitizing drops the leading underscores and dots, and then works byte by byte: dots become
      underscores, small letters capital ones, and what is no letter, digit or underscore goes. */
  lemma SanitizeIsBytewise(name: seq<byte>)
    ensures Sanitize(name) == Images(Unled(name))
  {
    SkipIsUnled(name);
    FilterIsImages(Unled(name));
  }

  /** The position of the first byte that survives the filter. */
  function FirstKept(name: seq<byte>): (i: nat)
    ensures i <= |name|
    ensures i < |name| ==> Kept(name[i])
    ensures forall k :: 0 <= k < i ==> !Kept(name[k])
  {
    if name == [] || Kept(name[0]) then 0
    else
      var i := FirstKept(name[1..]) + 1;
      assert forall k :: 0 < k < i ==> name[k] == name[1..][k - 1];
      i
  }

  lemma {:induction false} KeepOnlyStart(name: seq<byte>)
    ensures
      var i := FirstKept(name);
      if i == |name| then KeepOnly(name) == [] else KeepOnly(name) != [] && KeepOnly(name)[0] == name[i]
  {
    if name != [] && !Kept(name[0]) {
      KeepOnlyStart(name[1..]);
    }
  }

  /**
   * The documentation promises that leading underscores are stripped. They are stripped before
   * unacceptable bytes are filtered out, so one survives exactly when, behind the leading
   * underscores and dots, unacceptable bytes come before the next underscore or dot.
   */
  lemma SanitizedStartsWithUnderscore(name: seq<byte>)
    ensures
      var rest := SkipUnderscores(DotToUnderscore(name));
      var i := FirstKept(rest);
      Sanitize(name) != [] && Sanitize(name)[0] == UNDERSCORE <==> 0 < i < |rest| && rest[i] == UNDERSCORE
  {
    var rest := SkipUnderscores(DotToUnderscore(name));
    SkipStopsAtOther(DotToUnderscore(name));
    KeepOnlyStart(rest);
  }

  lemma {:induction false} SkipStopsAtOther(name: seq<byte>)
    ensures SkipUnderscores(name) != [] ==> SkipUnderscores(name)[0] != UNDERSCORE
  {
    if name != [] && name[0] == UNDERSCORE {
      SkipStopsAtOther(name[1..]);
    }
  }

  lemma UnderscoreSurvives()
    ensures Sanitize(Ascii("-_x")) == Ascii("_X")
  {
    var n: seq<byte> := [45, 95, 120];
    assert Ascii("-_x") == n;
    assert DotToUnderscore(n) == n;
    assert SkipUnderscores(n) == n;
    assert n[1..] == [95, 120] && n[1..][1..] == [120] && n[1..][1..][1..] == [];
    assert KeepOnly([120]) == [120];
    assert KeepOnly([95, 120]) == [95, 120];
    assert KeepOnly(n) == [95, 120];
    assert Ascii("_X") == [95, 88];
  }
}

module JournalLayer {
  import opened Options
  import opened LevelFilters
  import opened Bytes
  import opened JournalProtocol
  import opened JournalNames

  // ----- The buffer and the functions that append to it -----

  /** A `Vec<u8>`. */
  class Buffer {
    var data: seq<byte>

    constructor (data: seq<byte>)
      ensures this.data == data
    {
      this.data := data;
    }

    method Extend(bytes: seq<byte>)
      modifies this
      ensures data == old(data) + bytes
    {
      data := data + bytes;
    }

    /** `self[at..at + bytes.len()].copy_from_slice(bytes)` */
    method Patch(at: nat, bytes: seq<byte>)
      requires at + |bytes| <= |data|
      modifies this
      ensures data == old(data)[..at] + bytes + old(data)[at + |bytes|..]
    {
      data := data[..at] + bytes + data[at + |bytes|..];
    }

    /** `put_value` */
    method PutValue(value: seq<byte>)
      modifies this
      ensures data == old(data) + SizedValue(value)
    {
      Extend(ToLe(|value|, 8));
      Extend(value);
      Extend([NEWLINE]);
      Assoc(old(data), ToLe(|value|, 8), value);
      Assoc(old(data), ToLe(|value|, 8) + value, [NEWLINE]);
    }

    /** `put_field_wellformed` */
    method PutFieldWellformed(name: seq<byte>, value: seq<byte>)
      modifies this
      ensures data == old(data) + Encode(Sized(Field(name, value)))
    {
      Extend(name);
      Extend([NEWLINE]);
      PutValue(value);
      SizedParts(old(data), name, value);
    }

    /** `put_field_length_encoded`: the length is patched in once the value is there. */
    method PutFieldLengthEncoded(name: seq<byte>, value: seq<byte>)
      modifies this
      ensures data == old(data) + Encode(Sized(Field(Sanitize(name), value)))
    {
      Extend(Sanitize(name));
      Extend([NEWLINE]);
      ghost var head := data;
      Extend([0, 0, 0, 0, 0, 0, 0, 0]);
      var start := |data|;
      Extend(value);
      var end := |data|;
      Patch(start - 8, ToLe(end - start, 8));
      assert data == head + ToLe(|value|, 8) + value;
      Extend([NEWLINE]);
      Assoc(head, ToLe(|value|, 8), value);
      Assoc(head, ToLe(|value|, 8) + value, [NEWLINE]);
      SizedParts(old(data), Sanitize(name), value);
    }

    /** `put_metadata` */
    method PutMetadata(meta: Metadata, prefix: seq<byte>)
      modifies this
      ensures data == old(data) + EncodeAll(MetadataEntries(meta, prefix))
    {
      Extend(prefix);
      PutFieldWellformed(Ascii("TARGET"), meta.target);
      PrefixJoins(old(data), prefix, Sized(Field(Ascii("TARGET"), meta.target)));
      ghost var es := [Sized(Field(prefix + Ascii("TARGET"), meta.target))];
      EncodeOne(es[0]);
      if meta.file.Some? {
        ghost var before := data;
        Extend(prefix);
        PutFieldWellformed(Ascii("CODE_FILE"), meta.file.value);
        PrefixJoins(before, prefix, Sized(Field(Ascii("CODE_FILE"), meta.file.value)));
        AppendEntry(old(data), es, Sized(Field(prefix + Ascii("CODE_FILE"), meta.file.value)));
        es := es + [Sized(Field(prefix + Ascii("CODE_FILE"), meta.file.value))];
      }
      if meta.line.Some? {
        ghost var before := data;
        Extend(prefix);
        Extend(Ascii("CODE_LINE") + [EQUALS] + Decimal(meta.line.value) + [NEWLINE]);
        PrefixJoins(before, prefix, Line(Field(Ascii("CODE_LINE"), Decimal(meta.line.value))));
        AppendEntry(old(data), es, Line(Field(prefix + Ascii("CODE_LINE"), Decimal(meta.line.value))));
        es := es + [Line(Field(prefix + Ascii("CODE_LINE"), Decimal(meta.line.value)))];
      }
      assert es == MetadataEntries(meta, prefix);
    }

    /** One `record_*` call of either visitor, with the prefix that the visitor chose. */
    method RecordField(prefix: seq<byte>, name: seq<byte>, value: seq<byte>)
      modifies this
      ensures data == old(data) + Encode(Sized(Field(prefix + Sanitize(name), value)))
    {
      Extend(prefix);
      PutFieldLengthEncoded(name, value);
      PrefixJoins(old(data), prefix, Sized(Field(Sanitize(name), value)));
    }

    /** Fields without a prefix, one after another. */
    method PutFields(fields: seq<Field>)
      modifies this
      ensures data == old(data) + EncodeAll(CustomEntries(fields))
    {
      for i := 0 to |fields|
        invariant data == old(data) + EncodeAll(CustomEntries(fields[..i]))
      {
        PutFieldLengthEncoded(fields[i].name, fields[i].value);
        assert SpanPrefix(None) + Sanitize(fields[i].name) == Sanitize(fields[i].name);
        AppendEntry(old(data), CustomEntries(fields[..i]), SpanFieldEntry(None, fields[i]));
        FieldEntriesGrow(None, fields, i);
      }
      assert fields[..|fields|] == fields;
    }

    /** `Attributes::record` or `Record::record` with a `SpanVisitor`. */
    method RecordSpanFields(prefix: Option<seq<byte>>, fields: seq<Field>)
      modifies this
      ensures data == old(data) + EncodeAll(SpanFieldEntries(prefix, fields))
    {
      for i := 0 to |fields|
        invariant data == old(data) + EncodeAll(SpanFieldEntries(prefix, fields[..i]))
      {
        RecordField(SpanPrefix(prefix), fields[i].name, fields[i].value);
        AppendEntry(old(data), SpanFieldEntries(prefix, fields[..i]), SpanFieldEntry(prefix, fields[i]));
        FieldEntriesGrow(prefix, fields, i);
      }
      assert fields[..|fields|] == fields;
    }

    /** `Event::record` with an `EventVisitor`. */
    method RecordEventFields(prefix: Option<seq<byte>>, fields: seq<Field>)
      modifies this
      ensures data == old(data) + EncodeAll(EventFieldEntries(prefix, fields))
    {
      for i := 0 to |fields|
        invariant data == old(data) + EncodeAll(EventFieldEntries(prefix, fields[..i]))
      {
        RecordField(EventPrefix(prefix, fields[i].name), fields[i].name, fields[i].value);
        AppendEntry(old(data), EventFieldEntries(prefix, fields[..i]), EventFieldEntry(prefix, fields[i]));
        FieldEntriesGrow(prefix, fields, i);
      }
      assert fields[..|fields|] == fields;
    }
  }

  // ----- Concatenation -----

  lemma Assoc(a: seq<byte>, b: seq<byte>, c: seq<byte>)
    ensures (a + b) + c == a + (b + c)
  {
  }

  function SizedValue(value: seq<byte>): seq<byte> {
    ToLe(|value|, 8) + value + [NEWLINE]
  }

  lemma SizedSplits(name: seq<byte>, value: seq<byte>)
    ensures Encode(Sized(Field(name, value))) == name + [NEWLINE] + SizedValue(value)
  {
    var head := name + [NEWLINE];
    Assoc(head, ToLe(|value|, 8), value);
    Assoc(head, ToLe(|value|, 8) + value, [NEWLINE]);
  }

  lemma SizedParts(before: seq<byte>, name: seq<byte>, value: seq<byte>)
    ensures before + name + [NEWLINE] + SizedValue(value) == before + Encode(Sized(Field(name, value)))
  {
    SizedSplits(name, value);
    Assoc(before, name, [NEWLINE]);
    Assoc(before, name + [NEWLINE], SizedValue(value));
  }

  /** A prefix written ahead of a field becomes part of the field's name. */
  lemma PrefixJoins(before: seq<byte>, prefix: seq<byte>, e: Entry)
    ensures
      var joined := Field(prefix + e.field.name, e.field.value);
      before + prefix + Encode(e) == before + Encode(if e.Sized? then Sized(joined) else Line(joined))
  {
    var f := e.field;
    Assoc(before, prefix, Encode(e));
    if e.Sized? {
      SizedSplits(f.name, f.value);
      SizedSplits(prefix + f.name, f.value);
      Assoc(prefix, f.name, [NEWLINE]);
      Assoc(prefix, f.name + [NEWLINE], SizedValue(f.value));
    } else {
      Assoc(prefix, f.name, [EQUALS]);
      Assoc(prefix, f.name + [EQUALS], f.value);
      Assoc(prefix, f.name + [EQUALS] + f.value, [NEWLINE]);
    }
  }

  lemma EncodeAppend(es: seq<Entry>, e: Entry)
    ensures EncodeAll(es) + Encode(e) == EncodeAll(es + [e])
  {
    EncodeAllConcat(es, [e]);
    EncodeOne(e);
  }

  lemma AppendEntry(before: seq<byte>, es: seq<Entry>, e: Entry)
    ensures before + EncodeAll(es) + Encode(e) == before + EncodeAll(es + [e])
  {
    EncodeAppend(es, e);
    Assoc(before, EncodeAll(es), Encode(e));
  }

  // ----- What is to be sent -----

  /** Names and values as the bytes of the source's strings; `line` is a line number. */
  datatype Metadata = Metadata(level: Level, target: seq<byte>, file: Option<seq<byte>>, line: Option<nat>)

  /** Target, file and line, as far as they are known. */
  function MetadataEntries(meta: Metadata, prefix: seq<byte>): seq<Entry> {
    [Sized(Field(prefix + Ascii("TARGET"), meta.target))]
    + (if meta.file.Some? then [Sized(Field(prefix + Ascii("CODE_FILE"), meta.file.value))] else [])
    + (if meta.line.Some? then [Line(Field(prefix + Ascii("CODE_LINE"), Decimal(meta.line.value)))] else [])
  }

  /** The user's prefix and the underscore behind it. */
  function SpanPrefix(prefix: Option<seq<byte>>): seq<byte> {
    if prefix.Some? then prefix.value + [UNDERSCORE] else []
  }

  /** `message` becomes the standard `MESSAGE` field, so it is not prefixed. */
  function EventPrefix(prefix: Option<seq<byte>>, name: seq<byte>): seq<byte> {
    if name == Ascii("message") then [] else SpanPrefix(prefix)
  }

  function SpanFieldEntry(prefix: Option<seq<byte>>, f: Field): Entry {
    Sized(Field(SpanPrefix(prefix) + Sanitize(f.name), f.value))
  }

  function EventFieldEntry(prefix: Option<seq<byte>>, f: Field): Entry {
    Sized(Field(EventPrefix(prefix, f.name) + Sanitize(f.name), f.value))
  }

  function Mapped<T, U>(f: T -> U, xs: seq<T>): (ys: seq<U>)
    ensures |ys| == |xs|
    ensures forall k :: 0 <= k < |ys| ==> ys[k] == f(xs[k])
  {
    if xs == [] then [] else Mapped(f, xs[..|xs| - 1]) + [f(xs[|xs| - 1])]
  }

  lemma MappedGrows<T, U>(f: T -> U, xs: seq<T>, i: nat)
    requires i < |xs|
    ensures Mapped(f, xs[..i + 1]) == Mapped(f, xs[..i]) + [f(xs[i])]
  {
    assert xs[..i + 1][..i] == xs[..i];
  }

  lemma MappedConcat<T, U>(f: T -> U, a: seq<T>, b: seq<T>)
    ensures Mapped(f, a + b) == Mapped(f, a) + Mapped(f, b)
  {
  }

  function SpanFieldEntries(prefix: Option<seq<byte>>, fields: seq<Field>): seq<Entry> {
    Mapped(f => SpanFieldEntry(prefix, f), fields)
  }

  function EventFieldEntries(prefix: Option<seq<byte>>, fields: seq<Field>): seq<Entry> {
    Mapped(f => EventFieldEntry(prefix, f), fields)
  }

  lemma FieldEntriesGrow(prefix: Option<seq<byte>>, fields: seq<Field>, i: nat)
    requires i < |fields|
    ensures SpanFieldEntries(prefix, fields[..i + 1]) == SpanFieldEntries(prefix, fields[..i]) + [SpanFieldEntry(prefix, fields[i])]
    ensures EventFieldEntries(prefix, fields[..i + 1]) == EventFieldEntries(prefix, fields[..i]) + [EventFieldEntry(prefix, fields[i])]
  {
    MappedGrows(f => SpanFieldEntry(prefix, f), fields, i);
    MappedGrows(f => EventFieldEntry(prefix, f), fields, i);
  }

  lemma SpanFieldEntriesConcat(prefix: Option<seq<byte>>, a: seq<Field>, b: seq<Field>)
    ensures SpanFieldEntries(prefix, a + b) == SpanFieldEntries(prefix, a) + SpanFieldEntries(prefix, b)
  {
    MappedConcat(f => SpanFieldEntry(prefix, f), a, b);
  }

  /** The severities of section 6.2.1 of RFC 5424, sent as one ASCII digit. */
  datatype Priority = Emergency | Alert | Critical | PriorityError | Warning | Notice | Informational | PriorityDebug {
    function Code(): byte {
      match this
      case Emergency => 48
      case Alert => 49
      case Critical => 50
      case PriorityError => 51
      case Warning => 52
      case Notice => 53
      case Informational => 54
      case PriorityDebug => 55
    }
  }

  datatype PriorityMappings = PriorityMappings(error: Priority, warn: Priority, info: Priority, debug: Priority, trace: Priority) {
    function For(level: Level): Priority {
      match level
      case Error => error
      case Warn => warn
      case Info => info
      case Debug => debug
      case Trace => trace
    }
  }

  const DefaultMappings: PriorityMappings :=
    PriorityMappings(PriorityError, Warning, Notice, Informational, PriorityDebug)

  /** By default the level can be read back from the digit: it is the severity number, one step per level. */
  lemma DefaultMappingIsLossless(level: Level)
    ensures DefaultMappings.For(level).Code() == 48 + 7 - level.AsUsize()
  {
    match level { case Trace => case Debug => case Info => case Warn => case Error => }
  }

  datatype Config = Config(prefix: Option<seq<byte>>, identifier: seq<byte>, priorities: PriorityMappings)

  /** A span's own fields at its creation. */
  function SpanEntries(c: Config, name: seq<byte>, meta: Metadata, fields: seq<Field>): seq<Entry> {
    [Sized(Field(Ascii("SPAN_NAME"), name))] + MetadataEntries(meta, Ascii("SPAN_")) + SpanFieldEntries(c.prefix, fields)
  }

  function Flatten(ess: seq<seq<Entry>>): seq<Entry> {
    if ess == [] then [] else Flatten(ess[..|ess| - 1]) + ess[|ess| - 1]
  }

  /** Custom fields have no prefix. */
  function CustomEntries(fields: seq<Field>): seq<Entry> {
    SpanFieldEntries(None, fields)
  }

  /** The fields of one journal entry, in order. */
  function EventEntries(c: Config, spans: seq<seq<Entry>>, meta: Metadata, custom: seq<Field>, fields: seq<Field>): seq<Entry> {
    Flatten(spans)
    + [Sized(Field(Ascii("PRIORITY"), [c.priorities.For(meta.level).Code()]))]
    + MetadataEntries(meta, [])
    + [Sized(Field(Sanitize(Ascii("SYSLOG_IDENTIFIER")), c.identifier))]
    + CustomEntries(custom)
    + EventFieldEntries(c.prefix, fields)
  }

  type SpanId = nat

  class Layer {
    const config: Config
    var additional: seq<byte>               // additional_fields
    var spanFields: map<SpanId, seq<byte>>  // the SpanFields extension of each span
    ghost var custom: seq<Field>            // the custom fields asked for
    ghost var spans: map<SpanId, seq<Entry>>  // what each span was given

    ghost predicate Valid()
      reads this
    {
      && additional == EncodeAll(CustomEntries(custom))
      && spanFields.Keys == spans.Keys
      && forall id <- spans :: spanFields[id] == EncodeAll(spans[id])
    }

    constructor (config: Config)
      ensures Valid() && this.config == config && custom == [] && spans == map[]
    {
      this.config := config;
      additional := [];
      spanFields := map[];
      custom := [];
      spans := map[];
    }

    /** `with_custom_fields` */
    method WithCustomFields(fields: seq<Field>)
      requires Valid()
      modifies this
      ensures Valid() && custom == old(custom) + fields && spans == old(spans)
    {
      var buf := new Buffer(additional);
      buf.PutFields(fields);
      additional := buf.data;
      custom := custom + fields;
      EncodeAllConcat(CustomEntries(old(custom)), CustomEntries(fields));
      SpanFieldEntriesConcat(None, old(custom), fields);
    }

    /** `on_new_span` */
    method OnNewSpan(id: SpanId, name: seq<byte>, meta: Metadata, fields: seq<Field>)
      requires Valid()
      modifies this
      ensures Valid() && custom == old(custom)
      ensures spans == old(spans)[id := SpanEntries(config, name, meta, fields)]
    {
      var buf := new Buffer([]);
      buf.Extend(Ascii("SPAN_NAME") + [NEWLINE]);
      buf.PutValue(name);
      SizedSplits(Ascii("SPAN_NAME"), name);
      EncodeOne(Sized(Field(Ascii("SPAN_NAME"), name)));
      ghost var es := [Sized(Field(Ascii("SPAN_NAME"), name))];
      assert buf.data == EncodeAll(es);
      buf.PutMetadata(meta, Ascii("SPAN_"));
      EncodeAllConcat(es, MetadataEntries(meta, Ascii("SPAN_")));
      buf.RecordSpanFields(config.prefix, fields);
      EncodeAllConcat(es + MetadataEntries(meta, Ascii("SPAN_")), SpanFieldEntries(config.prefix, fields));
      spanFields := spanFields[id := buf.data];
      spans := spans[id := SpanEntries(config, name, meta, fields)];
    }

    /** `on_record` */
    method OnRecord(id: SpanId, fields: seq<Field>)
      requires Valid() && id in spans
      modifies this
      ensures Valid() && custom == old(custom)
      ensures spans == old(spans)[id := old(spans)[id] + SpanFieldEntries(config.prefix, fields)]
    {
      var buf := new Buffer(spanFields[id]);
      buf.RecordSpanFields(config.prefix, fields);
      EncodeAllConcat(spans[id], SpanFieldEntries(config.prefix, fields));
      spanFields := spanFields[id := buf.data];
      spans := spans[id := spans[id] + SpanFieldEntries(config.prefix, fields)];
    }

    /** The recorded fields of the spans in scope, root first. */
    method PutScope(ids: seq<SpanId>) returns (buf: Buffer)
      requires Valid() && forall id <- ids :: id in spans
      ensures fresh(buf) && buf.data == EncodeAll(Flatten(Scope(spans, ids)))
    {
      buf := new Buffer([]);
      for i := 0 to |ids|
        invariant fresh(buf) && buf.data == EncodeAll(Flatten(Scope(spans, ids[..i])))
      {
        buf.Extend(spanFields[ids[i]]);
        ScopeGrows(spans, ids, i);
      }
      assert ids[..|ids|] == ids;
    }

    /** `on_event`; `ids` is the current scope from the root. */
    method OnEvent(ids: seq<SpanId>, meta: Metadata, fields: seq<Field>) returns (payload: seq<byte>)
      requires Valid() && forall id <- ids :: id in spans
      ensures
        var entries := EventEntries(config, Scope(spans, ids), meta, custom, fields);
        && payload == EncodeAll(entries)
        && (AllCarried(entries) ==> (Decode(payload) == Some(Fields(entries)) <==> AllWellNamed(entries)))
    {
      var buf := PutScope(ids);
      ghost var es := Flatten(Scope(spans, ids));
      var priority: seq<byte> := [config.priorities.For(meta.level).Code()];
      buf.PutFieldWellformed(Ascii("PRIORITY"), priority);
      EncodeAppend(es, Sized(Field(Ascii("PRIORITY"), priority)));
      es := es + [Sized(Field(Ascii("PRIORITY"), priority))];
      buf.PutMetadata(meta, []);
      EncodeAllConcat(es, MetadataEntries(meta, []));
      es := es + MetadataEntries(meta, []);
      buf.PutFieldLengthEncoded(Ascii("SYSLOG_IDENTIFIER"), config.identifier);
      EncodeAppend(es, Sized(Field(Sanitize(Ascii("SYSLOG_IDENTIFIER")), config.identifier)));
      es := es + [Sized(Field(Sanitize(Ascii("SYSLOG_IDENTIFIER")), config.identifier))];
      buf.Extend(additional);
      EncodeAllConcat(es, CustomEntries(custom));
      es := es + CustomEntries(custom);
      buf.RecordEventFields(config.prefix, fields);
      EncodeAllConcat(es, EventFieldEntries(config.prefix, fields));
      payload := buf.data;
      if AllCarried(es + EventFieldEntries(config.prefix, fields)) {
        DecodeInvertsExactly(es + EventFieldEntries(config.prefix, fields));
      }
    }
  }

  function Scope(spans: map<SpanId, seq<Entry>>, ids: seq<SpanId>): seq<seq<Entry>>
    requires forall id <- ids :: id in spans
  {
    seq(|ids|, i requires 0 <= i < |ids| => spans[ids[i]])
  }

  lemma ScopeGrows(spans: map<SpanId, seq<Entry>>, ids: seq<SpanId>, i: nat)
    requires i < |ids| && forall id <- ids :: id in spans
    ensures EncodeAll(Flatten(Scope(spans, ids[..i + 1])))
         == EncodeAll(Flatten(Scope(spans, ids[..i]))) + EncodeAll(spans[ids[i]])
  {
    var upTo := Scope(spans, ids[..i + 1]);
    assert upTo[..i] == Scope(spans, ids[..i]);
    EncodeAllConcat(Flatten(upTo[..i]), upTo[i]);
  }

  // ----- What the entries are called -----

  lemma {:induction false} FlattenConcat(xss: seq<seq<Entry>>, yss: seq<seq<Entry>>)
    ensures Flatten(xss + yss) == Flatten(xss) + Flatten(yss)
  {
    if yss == [] {
      assert xss + yss == xss && Flatten(xss) + [] == Flatten(xss);
    } else {
      var n := |yss| - 1;
      FlattenConcat(xss, yss[..n]);
      assert (xss + yss)[..|xss| + n] == xss + yss[..n];
      assert (Flatten(xss) + Flatten(yss[..n])) + yss[n] == Flatten(xss) + (Flatten(yss[..n]) + yss[n]);
    }
  }

  /** The spans' entries come in the order of the scope, those of the root first. */
  lemma RootComesFirst(spans: map<SpanId, seq<Entry>>, outer: seq<SpanId>, id: SpanId, inner: seq<SpanId>)
    requires forall x <- outer + [id] + inner :: x in spans
    ensures
      (forall x <- outer :: x in spans) && id in spans && (forall x <- inner :: x in spans)
    ensures Flatten(Scope(spans, outer + [id] + inner))
         == Flatten(Scope(spans, outer)) + spans[id] + Flatten(Scope(spans, inner))
  {
    var all := outer + [id] + inner;
    forall x | x in outer || x == id || x in inner ensures x in spans {
      assert x in all;
    }
    var parts := Scope(spans, outer) + [spans[id]] + Scope(spans, inner);
    assert Scope(spans, all) == parts;
    FlattenConcat(Scope(spans, outer) + [spans[id]], Scope(spans, inner));
    FlattenConcat(Scope(spans, outer), [spans[id]]);
    FlattenOne(spans[id]);
  }

  lemma FlattenOne(es: seq<Entry>)
    ensures Flatten([es]) == es
  {
    assert [es][..0] == [] && [] + es == es;
  }

  lemma AsciiConcat(a: string, b: string)
    ensures Ascii(a) + Ascii(b) == Ascii(a + b)
  {
  }

  lemma MessageBytes()
    ensures Ascii("message") == [109, 101, 115, 115, 97, 103, 101]
    ensures Ascii("MESSAGE") == [77, 69, 83, 83, 65, 71, 69]
  {
  }

  lemma MessageIsMessage()
    ensures Sanitize(Ascii("message")) == Ascii("MESSAGE")
  {
    var name: seq<byte> := [109, 101, 115, 115, 97, 103, 101];
    MessageBytes();
    SanitizeChangesOnlyCase(name);
    assert Sanitize(name) == [77, 69, 83, 83, 65, 71, 69];
  }

  /** Under a prefix a user's field is called by the prefix, an underscore and its sanitized name. */
  function Prefixed(prefix: Option<seq<byte>>, name: seq<byte>): seq<byte> {
    (if prefix.Some? then prefix.value + [95] else []) + Sanitize(name)
  }

  /** Event fields take the prefix, except for `message`, which is always sent as `MESSAGE`. */
  lemma EventFieldsAreNamed(prefix: Option<seq<byte>>, fields: seq<Field>, k: nat)
    requires k < |fields|
    ensures
      var name, value := fields[k].name, fields[k].value;
      EventFieldEntries(prefix, fields)[k]
      == Sized(Field(if name == Ascii("message") then Ascii("MESSAGE") else Prefixed(prefix, name), value))
  {
    MessageIsMessage();
    assert [] + Sanitize(fields[k].name) == Sanitize(fields[k].name);
  }

  /** Span fields all take it. */
  lemma SpanFieldsAreNamed(prefix: Option<seq<byte>>, fields: seq<Field>, k: nat)
    requires k < |fields|
    ensures SpanFieldEntries(prefix, fields)[k] == Sized(Field(Prefixed(prefix, fields[k].name), fields[k].value))
  {
  }

  /** Target, then the file and the line if there are any, under the names given. */
  ghost predicate MetadataUnder(es: seq<Entry>, meta: Metadata, target: seq<byte>, file: seq<byte>, line: seq<byte>) {
    && |es| == 1 + (if meta.file.Some? then 1 else 0) + (if meta.line.Some? then 1 else 0)
    && es[0] == Sized(Field(target, meta.target))
    && (meta.file.Some? ==> es[1] == Sized(Field(file, meta.file.value)))
    && (meta.line.Some? ==> es[|es| - 1] == Line(Field(line, Decimal(meta.line.value))))
  }

  lemma MetadataLayout(meta: Metadata, prefix: seq<byte>)
    ensures MetadataUnder(MetadataEntries(meta, prefix), meta,
                          prefix + Ascii("TARGET"), prefix + Ascii("CODE_FILE"), prefix + Ascii("CODE_LINE"))
  {
  }

  /** The metadata of an event goes under its own names. */
  lemma EventMetadataIsNamed(meta: Metadata)
    ensures MetadataUnder(MetadataEntries(meta, []), meta, Ascii("TARGET"), Ascii("CODE_FILE"), Ascii("CODE_LINE"))
  {
    MetadataLayout(meta, []);
    assert [] + Ascii("TARGET") == Ascii("TARGET") && [] + Ascii("CODE_FILE") == Ascii("CODE_FILE");
    assert [] + Ascii("CODE_LINE") == Ascii("CODE_LINE");
  }

  /** That of a span goes under `SPAN_`. */
  lemma SpanMetadataIsNamed(meta: Metadata)
    ensures MetadataUnder(MetadataEntries(meta, Ascii("SPAN_")), meta,
                          Ascii("SPAN_TARGET"), Ascii("SPAN_CODE_FILE"), Ascii("SPAN_CODE_LINE"))
  {
    MetadataLayout(meta, Ascii("SPAN_"));
    AsciiConcat("SPAN_", "TARGET");
    AsciiConcat("SPAN_", "CODE_FILE");
    AsciiConcat("SPAN_", "CODE_LINE");
    assert "SPAN_" + "TARGET" == "SPAN_TARGET" && "SPAN_" + "CODE_FILE" == "SPAN_CODE_FILE";
    assert "SPAN_" + "CODE_LINE" == "SPAN_CODE_LINE";
  }

  /** The severity, as a digit, that each level is mapped to. */
  lemma PriorityIsMapped(p: PriorityMappings)
    ensures p.For(Error) == p.error && p.For(Warn) == p.warn && p.For(Info) == p.info
    ensures p.For(Debug) == p.debug && p.For(Trace) == p.trace
    ensures [Emergency.Code(), Alert.Code(), Critical.Code(), PriorityError.Code(), Warning.Code(), Notice.Code(),
             Informational.Code(), PriorityDebug.Code()] == Ascii("01234567")
  {
  }

  /** A span starts with its name, and ends with the fields given. */
  lemma SpanIsNamed(c: Config, name: seq<byte>, meta: Metadata, fields: seq<Field>)
    ensures
      var es := SpanEntries(c, name, meta, fields);
      && |es| >= 1 + |fields| && es[0] == Sized(Field(Ascii("SPAN_NAME"), name))
      && es[1..|es| - |fields|] == MetadataEntries(meta, Ascii("SPAN_"))
      && es[|es| - |fields|..] == SpanFieldEntries(c.prefix, fields)
  {
  }

  /** The entries are those of the six parts, one after another. */
  ghost predicate SixParted(all: seq<Entry>, a: seq<Entry>, b: Entry, c: seq<Entry>, d: Entry, e: seq<Entry>, f: seq<Entry>) {
    var m := |a| + 1 + |c|;
    && |all| == m + 1 + |e| + |f|
    && all[..|a|] == a && all[|a|] == b && all[|a| + 1..m] == c && all[m] == d
    && all[m + 1..|all| - |f|] == e && all[|all| - |f|..] == f
  }

  /**
   * What an event's payload carries, by literal name: its spans' entries, the priority, the metadata,
   * the identifier, the custom fields, and the event's fields.
   */
  lemma EventIsNamed(c: Config, spans: seq<seq<Entry>>, meta: Metadata, custom: seq<Field>, fields: seq<Field>)
    ensures SixParted(EventEntries(c, spans, meta, custom, fields),
                      Flatten(spans),
                      Sized(Field(Ascii("PRIORITY"), [c.priorities.For(meta.level).Code()])),
                      MetadataEntries(meta, []),
                      Sized(Field(Ascii("SYSLOG_IDENTIFIER"), c.identifier)),
                      CustomEntries(custom),
                      EventFieldEntries(c.prefix, fields))
  {
    IdentifierName();
    SixLayout(Flatten(spans), Sized(Field(Ascii("PRIORITY"), [c.priorities.For(meta.level).Code()])), MetadataEntries(meta, []),
              Sized(Field(Sanitize(Ascii("SYSLOG_IDENTIFIER")), c.identifier)), CustomEntries(custom),
              EventFieldEntries(c.prefix, fields));
  }

  /** Custom fields have their sanitized names and no prefix. */
  lemma CustomFieldsAreNamed(custom: seq<Field>, k: nat)
    requires k < |custom|
    ensures CustomEntries(custom)[k] == Sized(Field(Sanitize(custom[k].name), custom[k].value))
  {
    SpanFieldsAreNamed(None, custom, k);
    assert [] + Sanitize(custom[k].name) == Sanitize(custom[k].name);
  }

  lemma SixLayout(a: seq<Entry>, b: Entry, c: seq<Entry>, d: Entry, e: seq<Entry>, f: seq<Entry>)
    ensures SixParted(a + [b] + c + [d] + e + f, a, b, c, d, e, f)
  {
  }

  // ----- What the decoder reads -----

  /** A prefix and a sanitized name make a good name unless both are empty or the prefix has a newline or `=`. */
  lemma PrefixedName(prefix: seq<byte>, name: seq<byte>)
    ensures WellNamed(prefix + Sanitize(name)) <==>
      && NEWLINE !in prefix && EQUALS !in prefix
      && (prefix != [] || exists b <- SkipUnderscores(DotToUnderscore(name)) :: Kept(b))
  {
    var rest := SkipUnderscores(DotToUnderscore(name));
    SanitizedIsAccepted(name);
    KeepOnlyKeeps(rest);
    assert |Sanitize(name)| == |KeepOnly(rest)|;
    assert prefix + Sanitize(name) == [] <==> prefix == [] && Sanitize(name) == [];
  }

  ghost predicate UserNamesOk(prefix: seq<byte>, fields: seq<Field>) {
    forall f <- fields :: WellNamed(prefix + Sanitize(f.name))
  }

  ghost predicate EventNamesOk(prefix: Option<seq<byte>>, fields: seq<Field>) {
    forall f <- fields :: WellNamed(EventPrefix(prefix, f.name) + Sanitize(f.name))
  }

  ghost predicate AllWellNamed(es: seq<Entry>) {
    forall e <- es :: WellNamed(e.field.name)
  }

  ghost predicate AllCarried(es: seq<Entry>) {
    forall e <- es :: Carried(e)
  }

  /** Everything that is not a user's name is well named. */
  lemma MetadataWellNamed(meta: Metadata, prefix: seq<byte>)
    requires NEWLINE !in prefix && EQUALS !in prefix
    ensures AllWellNamed(MetadataEntries(meta, prefix))
  {
    assert WellNamed(prefix + Ascii("TARGET"));
    assert WellNamed(prefix + Ascii("CODE_FILE"));
    assert WellNamed(prefix + Ascii("CODE_LINE"));
  }

  lemma IdentifierName()
    ensures Sanitize(Ascii("SYSLOG_IDENTIFIER")) == Ascii("SYSLOG_IDENTIFIER")
  {
    SanitizeIsIdentityOnAccepted(Ascii("SYSLOG_IDENTIFIER"));
  }

  lemma SpanFieldsWellNamed(prefix: Option<seq<byte>>, fields: seq<Field>)
    ensures AllWellNamed(SpanFieldEntries(prefix, fields)) <==> UserNamesOk(SpanPrefix(prefix), fields)
  {
    var es := SpanFieldEntries(prefix, fields);
    assert forall i :: 0 <= i < |fields| ==> es[i].field.name == SpanPrefix(prefix) + Sanitize(fields[i].name) && es[i] in es;
  }

  lemma EventFieldsWellNamed(prefix: Option<seq<byte>>, fields: seq<Field>)
    ensures AllWellNamed(EventFieldEntries(prefix, fields)) <==> EventNamesOk(prefix, fields)
  {
    var es := EventFieldEntries(prefix, fields);
    assert forall i :: 0 <= i < |fields| ==>
      es[i].field.name == EventPrefix(prefix, fields[i].name) + Sanitize(fields[i].name) && es[i] in es;
  }

  ghost predicate Fits(value: seq<byte>) {
    |value| < U64_BOUND
  }

  ghost predicate MetaFits(meta: Metadata) {
    Fits(meta.target) && (meta.file.Some? ==> Fits(meta.file.value))
  }

  ghost predicate FieldsFit(fields: seq<Field>) {
    forall f <- fields :: Fits(f.value)
  }

  /** Values of any content can be carried, as long as their length fits the 64-bit length tag. */
  lemma EverythingCarried(prefix: Option<seq<byte>>, metaPrefix: seq<byte>, meta: Metadata, fields: seq<Field>)
    requires MetaFits(meta) && FieldsFit(fields)
    ensures AllCarried(MetadataEntries(meta, metaPrefix))
    ensures AllCarried(SpanFieldEntries(prefix, fields)) && AllCarried(EventFieldEntries(prefix, fields))
  {
    if meta.line.Some? {
      DecimalRoundTrip(meta.line.value);
    }
    assert forall i :: 0 <= i < |fields| ==> fields[i] in fields;
  }

  lemma Concatenated(xs: seq<Entry>, ys: seq<Entry>)
    ensures AllWellNamed(xs + ys) <==> AllWellNamed(xs) && AllWellNamed(ys)
    ensures AllCarried(xs + ys) <==> AllCarried(xs) && AllCarried(ys)
  {
    assert forall e :: e in xs + ys <==> e in xs || e in ys;
  }

  lemma {:induction false} Flattened(ess: seq<seq<Entry>>)
    ensures AllWellNamed(Flatten(ess)) <==> forall es <- ess :: AllWellNamed(es)
    ensures AllCarried(Flatten(ess)) <==> forall es <- ess :: AllCarried(es)
  {
    if ess != [] {
      var init, last := ess[..|ess| - 1], ess[|ess| - 1];
      Flattened(init);
      Concatenated(Flatten(init), last);
      assert forall es :: es in ess <==> es in init || es == last;
    }
  }

  /** What a span contributes is in order exactly when its users' names are. */
  lemma SpanIsWellNamed(c: Config, name: seq<byte>, meta: Metadata, fields: seq<Field>)
    ensures AllWellNamed(SpanEntries(c, name, meta, fields)) <==> UserNamesOk(SpanPrefix(c.prefix), fields)
    ensures Fits(name) && MetaFits(meta) && FieldsFit(fields) ==> AllCarried(SpanEntries(c, name, meta, fields))
  {
    var spanName, metadata := Ascii("SPAN_NAME"), MetadataEntries(meta, Ascii("SPAN_"));
    SpanNames();
    OneEntry(spanName, name);
    MetadataWellNamed(meta, Ascii("SPAN_"));
    SpanFieldsWellNamed(c.prefix, fields);
    ThreeParts([Sized(Field(spanName, name))], metadata, SpanFieldEntries(c.prefix, fields));
    if MetaFits(meta) && FieldsFit(fields) {
      EverythingCarried(c.prefix, Ascii("SPAN_"), meta, fields);
    }
  }

  lemma SpanNames()
    ensures WellNamed(Ascii("SPAN_NAME"))
    ensures NEWLINE !in Ascii("SPAN_") && EQUALS !in Ascii("SPAN_")
  {
  }

  lemma ThreeParts(a: seq<Entry>, b: seq<Entry>, c: seq<Entry>)
    ensures AllWellNamed(a + b + c) <==> AllWellNamed(a) && AllWellNamed(b) && AllWellNamed(c)
    ensures AllCarried(a + b + c) <==> AllCarried(a) && AllCarried(b) && AllCarried(c)
  {
    Concatenated(a, b);
    Concatenated(a + b, c);
  }

  lemma SixParts(a: seq<Entry>, b: seq<Entry>, c: seq<Entry>, d: seq<Entry>, e: seq<Entry>, f: seq<Entry>)
    ensures AllWellNamed(a + b + c + d + e + f) <==>
      AllWellNamed(a) && AllWellNamed(b) && AllWellNamed(c) && AllWellNamed(d) && AllWellNamed(e) && AllWellNamed(f)
    ensures AllCarried(a + b + c + d + e + f) <==>
      AllCarried(a) && AllCarried(b) && AllCarried(c) && AllCarried(d) && AllCarried(e) && AllCarried(f)
  {
    Concatenated(a, b);
    Concatenated(a + b, c);
    Concatenated(a + b + c, d);
    Concatenated(a + b + c + d, e);
    Concatenated(a + b + c + d + e, f);
  }

  lemma OneEntry(name: seq<byte>, value: seq<byte>)
    ensures AllWellNamed([Sized(Field(name, value))]) <==> WellNamed(name)
    ensures AllCarried([Sized(Field(name, value))]) <==> Fits(value)
  {
    assert Sized(Field(name, value)) in [Sized(Field(name, value))];
  }

  lemma FixedNames()
    ensures WellNamed(Ascii("PRIORITY")) && WellNamed(Sanitize(Ascii("SYSLOG_IDENTIFIER")))
  {
    var identifier := Ascii("SYSLOG_IDENTIFIER");
    SanitizedIsAccepted(identifier);
    assert Sanitize(identifier) != [] by {
      IdentifierName();
      assert |identifier| == 17;
    }
  }

  /** All but the user-given parts of an event are always in order. */
  lemma EventParts(c: Config, spans: seq<seq<Entry>>, meta: Metadata, custom: seq<Field>, fields: seq<Field>)
    ensures AllWellNamed(EventEntries(c, spans, meta, custom, fields)) <==>
      (forall es <- spans :: AllWellNamed(es)) && UserNamesOk([], custom) && EventNamesOk(c.prefix, fields)
    ensures (forall es <- spans :: AllCarried(es)) && MetaFits(meta) && Fits(c.identifier) && FieldsFit(custom) && FieldsFit(fields)
      ==> AllCarried(EventEntries(c, spans, meta, custom, fields))
  {
    var priority := [c.priorities.For(meta.level).Code()];
    var identifier := Sanitize(Ascii("SYSLOG_IDENTIFIER"));
    Flattened(spans);
    FixedNames();
    OneEntry(Ascii("PRIORITY"), priority);
    MetadataWellNamed(meta, []);
    OneEntry(identifier, c.identifier);
    SpanFieldsWellNamed(None, custom);
    EventFieldsWellNamed(c.prefix, fields);
    SixParts(Flatten(spans), [Sized(Field(Ascii("PRIORITY"), priority))], MetadataEntries(meta, []),
             [Sized(Field(identifier, c.identifier))], CustomEntries(custom), EventFieldEntries(c.prefix, fields));
    if MetaFits(meta) && FieldsFit(custom) { EverythingCarried(None, [], meta, custom); }
    if MetaFits(meta) && FieldsFit(fields) { EverythingCarried(c.prefix, [], meta, fields); }
  }

  /**
   * The decoder reads back exactly the intended fields (those of each span from the root, then
   * priority, metadata, identifier, custom fields and event fields), whatever bytes the values
   * hold, if and only if every user-given name leads to a usable field name.
   */
  lemma EventPayloadDecodes(c: Config, spans: seq<seq<Entry>>, meta: Metadata, custom: seq<Field>, fields: seq<Field>)
    requires forall es <- spans :: AllCarried(es)
    requires MetaFits(meta) && Fits(c.identifier) && FieldsFit(custom) && FieldsFit(fields)
    ensures
      var entries := EventEntries(c, spans, meta, custom, fields);
      Decode(EncodeAll(entries)) == Some(Fields(entries)) <==>
        && (forall es <- spans :: AllWellNamed(es))
        && UserNamesOk([], custom)
        && EventNamesOk(c.prefix, fields)
  {
    EventParts(c, spans, meta, custom, fields);
    DecodeInvertsExactly(EventEntries(c, spans, meta, custom, fields));
  }

  /** A field whose name has nothing acceptable, sent without a prefix, makes the decoder reject the payload from there on. */
  lemma NamelessFieldIsMalformed(value: seq<byte>, rest: seq<byte>)
    ensures Sanitize(Ascii("-")) == []
    ensures Decode(Encode(Sized(Field(Sanitize(Ascii("-")), value))) + rest) == None
  {
    var n: seq<byte> := [45];
    assert Ascii("-") == n && DotToUnderscore(n) == n && SkipUnderscores(n) == n;
    assert n[1..] == [] && KeepOnly(n) == [];
    var bs := Encode(Sized(Field([], value))) + rest;
    SizedLayout(Field([], value), rest, bs);
    IndexAt(bs, NEWLINE, 0);
  }
}
