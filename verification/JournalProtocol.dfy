/**
 * The systemd Native Journal Protocol as journald reads it: fields one after another, each either
 * `NAME=value` on one line, or `NAME`, a newline, the length of the value as 64-bit little-endian
 * number, the value itself, and a newline. The encoder in tracing-journald/src/lib.rs is checked
 * against the decoder defined here.
 */
module JournalProtocol {
  import opened Options
  import opened Bytes

  const NEWLINE: byte := 10
  const EQUALS: byte := 61
  const U64_BOUND: nat := 0x1_0000_0000_0000_0000

  datatype Field = Field(name: seq<byte>, value: seq<byte>)

  /** A field with the form in which it is written. */
  datatype Entry = Sized(field: Field) | Line(field: Field)

  // ----- Numbers -----

  /** The `k` low bytes of `n`, least significant first: `to_le_bytes` for `k == 8`. */
  function ToLe(n: nat, k: nat): (bs: seq<byte>)
    ensures |bs| == k
  {
    if k == 0 then [] else [n % 256] + ToLe(n / 256, k - 1)
  }

  function FromLe(bs: seq<byte>): nat {
    if bs == [] then 0 else bs[0] + 256 * FromLe(bs[1..])
  }

  function Pow256(k: nat): nat {
    if k == 0 then 1 else 256 * Pow256(k - 1)
  }

  lemma {:induction false} LeRoundTrip(n: nat, k: nat)
    requires n < Pow256(k)
    ensures FromLe(ToLe(n, k)) == n
  {
    if k > 0 {
      assert n / 256 < Pow256(k - 1);
      LeRoundTrip(n / 256, k - 1);
      assert ToLe(n, k)[1..] == ToLe(n / 256, k - 1);
    }
  }

  lemma LengthRoundTrip(n: nat)
    requires n < U64_BOUND
    ensures FromLe(ToLe(n, 8)) == n
  {
    assert Pow256(4) == 0x1_0000_0000;
    assert Pow256(8) == U64_BOUND;
    LeRoundTrip(n, 8);
  }

  // ----- The encoding -----

  function Encode(e: Entry): seq<byte> {
    match e
    case Sized(f) => f.name + [NEWLINE] + ToLe(|f.value|, 8) + f.value + [NEWLINE]
    case Line(f) => f.name + [EQUALS] + f.value + [NEWLINE]
  }

  function EncodeAll(es: seq<Entry>): seq<byte> {
    if es == [] then [] else Encode(es[0]) + EncodeAll(es[1..])
  }

  function Fields(es: seq<Entry>): seq<Field> {
    seq(|es|, i requires 0 <= i < |es| => es[i].field)
  }

  lemma {:induction false} EncodeAllConcat(xs: seq<Entry>, ys: seq<Entry>)
    ensures EncodeAll(xs + ys) == EncodeAll(xs) + EncodeAll(ys)
  {
    if xs == [] {
      assert xs + ys == ys;
    } else {
      assert (xs + ys)[1..] == xs[1..] + ys;
      EncodeAllConcat(xs[1..], ys);
    }
  }

  lemma EncodeOne(e: Entry)
    ensures EncodeAll([e]) == Encode(e)
  {
    assert EncodeAll([e]) == Encode(e) + EncodeAll([]);
  }

  // ----- The decoder -----

  function IndexOf(bs: seq<byte>, b: byte): (i: Option<nat>)
    ensures i.Some? ==> i.value < |bs| && bs[i.value] == b && b !in bs[..i.value]
    ensures i.None? ==> b !in bs
  {
    if bs == [] then None
    else if bs[0] == b then Some(0)
    else
      var rest := IndexOf(bs[1..], b);
      if rest.None? then None
      else
        assert bs[..rest.value + 1] == [bs[0]] + bs[1..][..rest.value];
        Some(rest.value + 1)
  }

  /** What the first field is and where the next one starts, or `None` if the bytes are malformed. */
  function DecodeFirst(bs: seq<byte>): (r: Option<(Field, nat)>)
    ensures r.Some? ==> 0 < r.value.1 <= |bs|
  {
    var nl := IndexOf(bs, NEWLINE);
    if nl.None? then None
    else
      var line, after := bs[..nl.value], nl.value + 1;
      var eq := IndexOf(line, EQUALS);
      if eq.Some? then
        if eq.value == 0 then None
        else Some((Field(line[..eq.value], line[eq.value + 1..]), after))
      else if line == [] || |bs| < after + 8 then None
      else
        var start := after + 8;
        var end := start + FromLe(bs[after..start]);
        if |bs| <= end || bs[end] != NEWLINE then None
        else Some((Field(line, bs[start..end]), end + 1))
  }

  function Decode(bs: seq<byte>): Option<seq<Field>>
    decreases |bs|
  {
    if bs == [] then Some([])
    else
      var first := DecodeFirst(bs);
      if first.None? then None
      else
        var rest := Decode(bs[first.value.1..]);
        if rest.None? then None else Some([first.value.0] + rest.value)
  }

  // ----- The decoder inverts the encoding -----

  predicate WellNamed(name: seq<byte>) {
    name != [] && NEWLINE !in name && EQUALS !in name
  }

  /** The values that the form of an entry can carry: any bytes behind a length, anything but a newline on a line. */
  predicate Carried(e: Entry) {
    match e
    case Sized(f) => |f.value| < U64_BOUND
    case Line(f) => NEWLINE !in f.value
  }

  lemma IndexAt(bs: seq<byte>, b: byte, i: nat)
    requires i < |bs| && bs[i] == b && b !in bs[..i]
    ensures IndexOf(bs, b) == Some(i)
  {
    assert forall k :: 0 <= k < i ==> bs[..i][k] == bs[k];
    assert IndexOf(bs, b).Some?;
  }

  /** Where the parts of a length-encoded field lie. */
  lemma SizedLayout(f: Field, rest: seq<byte>, bs: seq<byte>)
    requires bs == Encode(Sized(f)) + rest
    ensures
      var n, v := |f.name|, |f.value|;
      && |Encode(Sized(f))| == n + v + 10 <= |bs|
      && bs[..n] == f.name && bs[n] == NEWLINE
      && bs[n + 1..n + 9] == ToLe(v, 8)
      && bs[n + 9..n + 9 + v] == f.value && bs[n + 9 + v] == NEWLINE
  {
  }

  lemma DecodeSized(f: Field, rest: seq<byte>)
    requires WellNamed(f.name) && |f.value| < U64_BOUND
    ensures DecodeFirst(Encode(Sized(f)) + rest) == Some((f, |Encode(Sized(f))|))
  {
    var bs := Encode(Sized(f)) + rest;
    SizedLayout(f, rest, bs);
    DecodeLaidOut(f, bs);
  }

  lemma DecodeLaidOut(f: Field, bs: seq<byte>)
    requires WellNamed(f.name) && |f.value| < U64_BOUND
    requires |f.name| + |f.value| + 10 <= |bs|
    requires bs[..|f.name|] == f.name && bs[|f.name|] == NEWLINE
    requires bs[|f.name| + 1..|f.name| + 9] == ToLe(|f.value|, 8)
    requires bs[|f.name| + 9..|f.name| + 9 + |f.value|] == f.value && bs[|f.name| + 9 + |f.value|] == NEWLINE
    ensures DecodeFirst(bs) == Some((f, |f.name| + |f.value| + 10))
  {
    var n, v := |f.name|, |f.value|;
    IndexAt(bs, NEWLINE, n);
    assert IndexOf(f.name, EQUALS) == None;
    LengthRoundTrip(v);
    assert FromLe(bs[n + 1..n + 9]) == v;
  }

  lemma DecodeLine(f: Field, rest: seq<byte>)
    requires WellNamed(f.name) && NEWLINE !in f.value
    ensures DecodeFirst(Encode(Line(f)) + rest) == Some((f, |Encode(Line(f))|))
  {
    var bs := Encode(Line(f)) + rest;
    var n, line := |f.name|, f.name + [EQUALS] + f.value;
    assert bs[..|line|] == line;
    IndexAt(bs, NEWLINE, |line|);
    assert line[..n] == f.name && line[n + 1..] == f.value;
    IndexAt(line, EQUALS, n);
  }

  lemma DecodeEntry(e: Entry, rest: seq<byte>)
    requires WellNamed(e.field.name) && Carried(e)
    ensures Encode(e) != [] && DecodeFirst(Encode(e) + rest) == Some((e.field, |Encode(e)|))
  {
    if e.Sized? { DecodeSized(e.field, rest); } else { DecodeLine(e.field, rest); }
  }

  /** One entry in front is one field in front. */
  lemma DecodePrepend(e: Entry, rest: seq<byte>)
    requires WellNamed(e.field.name) && Carried(e) && Decode(rest).Some?
    ensures Decode(Encode(e) + rest) == Some([e.field] + Decode(rest).value)
  {
    DecodeEntry(e, rest);
    assert (Encode(e) + rest)[|Encode(e)|..] == rest;
  }

  lemma FieldsSplit(es: seq<Entry>)
    ensures es == [] ==> Fields(es) == []
    ensures es != [] ==> Fields(es) == [es[0].field] + Fields(es[1..])
  {
  }

  /** Every list of well-named fields survives, whatever bytes the values hold. */
  lemma {:induction false} DecodeInverts(es: seq<Entry>)
    requires forall i :: 0 <= i < |es| ==> WellNamed(es[i].field.name) && Carried(es[i])
    ensures Decode(EncodeAll(es)) == Some(Fields(es))
  {
    FieldsSplit(es);
    if es != [] {
      DecodeInverts(es[1..]);
      DecodePrepend(es[0], EncodeAll(es[1..]));
    }
  }

  lemma {:induction false} DecodedIsWellNamed(bs: seq<byte>)
    requires Decode(bs).Some?
    ensures forall f <- Decode(bs).value :: WellNamed(f.name)
    decreases |bs|
  {
    if bs != [] {
      var first := DecodeFirst(bs).value;
      DecodedIsWellNamed(bs[first.1..]);
    }
  }

  /** Decoding gives back the fields that were written exactly when all of them are well named. */
  lemma DecodeInvertsExactly(es: seq<Entry>)
    requires forall e <- es :: Carried(e)
    ensures Decode(EncodeAll(es)) == Some(Fields(es)) <==> forall e <- es :: WellNamed(e.field.name)
  {
    if Decode(EncodeAll(es)) == Some(Fields(es)) {
      DecodedIsWellNamed(EncodeAll(es));
      forall e | e in es ensures WellNamed(e.field.name) {
        var i :| 0 <= i < |es| && es[i] == e;
        assert Fields(es)[i] == e.field;
        assert e.field in Fields(es);
      }
    } else if forall e <- es :: WellNamed(e.field.name) {
      DecodeInverts(es);
      assert false;
    }
  }
}
