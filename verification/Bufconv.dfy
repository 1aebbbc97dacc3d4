// Integers in a variable number of bytes, the least significant first. The signed form
// keeps the sign in the top bit of its last byte.
module Bufconv {
  import opened Wrappers
  import opened Sealing

  type Byte = x: int | 0 <= x < 0x100

  const MAX_ALLOWED_INTEGER: int := 0x1F_FFFF_FFFF_FFFF
  const MIN_ALLOWED_INTEGER: int := -0x1F_FFFF_FFFF_FFFF

  datatype Outcome<T> = Done(value: T) | AboveMaximum | BelowMinimum

  // ---------- The form of an integer ----------

  function UIntBytes(v: nat): (s: seq<Byte>)
    ensures s != []
  {
    if v < 0x100 then [v] else [v % 0x100] + UIntBytes(v / 0x100)
  }

  function IntBytes(v: int): (s: seq<Byte>)
    ensures s != []
    decreases if v < 0 then -v else v
  {
    if -0x80 <= v < 0x80 then [v % 0x100] else [v % 0x100] + IntBytes(v / 0x100)
  }

  // The value of a non-empty string of bytes.
  function UIntOf(s: seq<Byte>): nat {
    if s == [] then 0 else s[0] + 0x100 * UIntOf(s[1..])
  }

  function IntOf(s: seq<Byte>): int
    requires s != []
  {
    if |s| == 1 then if s[0] < 0x80 then s[0] else s[0] - 0x100
    else s[0] + 0x100 * IntOf(s[1..])
  }

  function Zeros(n: nat): (s: seq<Byte>)
    ensures |s| == n
    ensures forall i :: 0 <= i < n ==> s[i] == 0
  {
    if n == 0 then [] else [0] + Zeros(n - 1)
  }

  // ---------- Round trips ----------

  lemma {:induction false} UIntRoundTrip(v: nat, pad: nat)
    ensures UIntOf(UIntBytes(v) + Zeros(pad)) == v
  {
    var s := UIntBytes(v) + Zeros(pad);
    if v < 0x100 {
      assert s[1..] == Zeros(pad);
      ZerosAreZero(pad);
    } else {
      assert s[1..] == UIntBytes(v / 0x100) + Zeros(pad);
      UIntRoundTrip(v / 0x100, pad);
    }
  }

  lemma {:induction false} ZerosAreZero(n: nat)
    ensures UIntOf(Zeros(n)) == 0
    ensures n > 0 ==> IntOf(Zeros(n)) == 0
  {
    if n > 0 {
      assert Zeros(n)[1..] == Zeros(n - 1);
      ZerosAreZero(n - 1);
    }
  }

  lemma {:induction false} IntRoundTrip(v: int)
    ensures IntOf(IntBytes(v)) == v
    decreases if v < 0 then -v else v
  {
    if !(-0x80 <= v < 0x80) {
      assert IntBytes(v)[1..] == IntBytes(v / 0x100);
      IntRoundTrip(v / 0x100);
    }
  }

  // A padded integer reads as the same one only when it is not negative: the padding of
  // a negative one turns its sign.
  lemma {:induction false} PaddedInt(v: int, pad: nat)
    requires pad > 0
    ensures v >= 0 ==> IntOf(IntBytes(v) + Zeros(pad)) == v
    ensures v < 0 ==> IntOf(IntBytes(v) + Zeros(pad)) >= 0
    decreases if v < 0 then -v else v
  {
    var s := IntBytes(v) + Zeros(pad);
    if -0x80 <= v < 0x80 {
      assert s[1..] == Zeros(pad);
      ZerosAreZero(pad);
    } else {
      assert s[1..] == IntBytes(v / 0x100) + Zeros(pad);
      PaddedInt(v / 0x100, pad);
    }
  }

  lemma PaddedIntRoundTrip(v: int, pad: nat)
    ensures IntOf(IntBytes(v) + Zeros(pad)) == v <==> v >= 0 || pad == 0
  {
    if pad == 0 {
      assert IntBytes(v) + Zeros(pad) == IntBytes(v);
      IntRoundTrip(v);
    } else {
      PaddedInt(v, pad);
    }
  }

  // ---------- No form is shorter ----------

  lemma {:induction false} UIntBytesAreFewest(s: seq<Byte>)
    requires s != []
    ensures |UIntBytes(UIntOf(s))| <= |s|
  {
    if |s| > 1 && UIntOf(s) >= 0x100 {
      UIntBytesAreFewest(s[1..]);
    }
  }

  lemma {:induction false} IntBytesAreFewest(s: seq<Byte>)
    requires s != []
    ensures |IntBytes(IntOf(s))| <= |s|
  {
    if |s| > 1 && !(-0x80 <= IntOf(s) < 0x80) {
      IntBytesAreFewest(s[1..]);
    }
  }

  function Power(n: nat): (p: nat)
    ensures p > 0
  {
    if n == 0 then 1 else 0x100 * Power(n - 1)
  }

  lemma {:induction false} UIntBytesAtMost(v: nat, n: nat)
    requires n > 0 && v < Power(n)
    ensures |UIntBytes(v)| <= n
  {
    if v >= 0x100 { UIntBytesAtMost(v / 0x100, n - 1); }
  }

  lemma {:induction false} IntBytesAtMost(v: int, n: nat)
    requires n > 0 && 0 <= Power(n) + 2 * v < 2 * Power(n)
    ensures |IntBytes(v)| <= n
    decreases n
  {
    if !(-0x80 <= v < 0x80) {
      assert n > 1 && Power(n - 1) == 2 * (0x80 * Power(n - 2));
      IntBytesAtMost(v / 0x100, n - 1);
    }
  }

  lemma SevenPowers()
    ensures Power(7) == 0x100_0000_0000_0000
  {
    assert Power(3) == 0x100_0000;
    assert Power(5) == 0x100_0000_0000;
  }

  // Every integer that is allowed takes one to seven bytes, reads back as itself, also
  // after padding when it is unsigned, and has no shorter form.
  lemma UIntCodec(v: nat, pad: nat, other: seq<Byte>)
    requires v <= MAX_ALLOWED_INTEGER
    ensures 1 <= |UIntBytes(v)| <= 7
    ensures UIntOf(UIntBytes(v) + Zeros(pad)) == v
    ensures other != [] && UIntOf(other) == v ==> |other| >= |UIntBytes(v)|
  {
    SevenPowers();
    UIntBytesAtMost(v, 7);
    UIntRoundTrip(v, pad);
    if other != [] { UIntBytesAreFewest(other); }
  }

  lemma IntCodec(v: int, pad: nat, other: seq<Byte>)
    requires MIN_ALLOWED_INTEGER <= v <= MAX_ALLOWED_INTEGER
    ensures 1 <= |IntBytes(v)| <= 7
    ensures IntOf(IntBytes(v)) == v
    ensures IntOf(IntBytes(v) + Zeros(pad)) == v <==> v >= 0 || pad == 0
    ensures other != [] && IntOf(other) == v ==> |other| >= |IntBytes(v)|
  {
    SevenPowers();
    IntBytesAtMost(v, 7);
    IntRoundTrip(v);
    PaddedIntRoundTrip(v, pad);
    if other != [] { IntBytesAreFewest(other); }
  }

  // ---------- Arithmetic of the source ----------

  // The integer without its `k` lowest bytes, rounded down.
  function Shifted(value: int, k: nat): int {
    if k == 0 then value else Shifted(value, k - 1) / 0x100
  }

  // Those bytes are all zero.
  ghost predicate Exact(value: int, k: nat) {
    k > 0 ==> Exact(value, k - 1) && Shifted(value, k - 1) % 0x100 == 0
  }

  function Trunc(v: real): int { if v >= 0.0 then v.Floor else -((-v).Floor) }

  // What the bitwise operators of the language make of a number.
  function Int32(v: real): int { (Trunc(v) + 0x8000_0000) % 0x1_0000_0000 - 0x8000_0000 }

  // The number is the quotient of the integer by 256 to the power `k`.
  ghost predicate IsQuotient(v: real, value: int, k: nat) {
    && Shifted(value, k) as real <= v < Shifted(value, k) as real + 1.0
    && (v == Shifted(value, k) as real <==> Exact(value, k))
  }

  lemma Regroup(s: int, b: int, p: int, r: int)
    requires 0 <= b < 0x100 && 0 <= r < p
    ensures (0x100 * s + b) * p + r == s * (0x100 * p) + (b * p + r)
    ensures 0 <= b * p + r < 0x100 * p
    ensures b * p + r == 0 <==> b == 0 && r == 0
  {
    Multiple(b, p);
  }

  lemma Multiple(b: int, p: int)
    requires 0 <= b < 0x100 && 0 < p
    ensures 0 <= b * p <= 0xff * p
    ensures b > 0 ==> b * p >= p
  {
  }

  lemma {:induction false} Remainder(value: int, k: nat) returns (r: nat)
    ensures value == Shifted(value, k) * Power(k) + r && r < Power(k)
    ensures r == 0 <==> Exact(value, k)
  {
    r := 0;
    if k > 0 {
      r := Remainder(value, k - 1);
      var b := Shifted(value, k - 1) % 0x100;
      Regroup(Shifted(value, k), b, Power(k - 1), r);
      r := b * Power(k - 1) + r;
    }
  }

  lemma RealParts(value: int, s: int, p: nat, r: nat)
    requires value == s * p + r && r < p
    ensures var v := value as real / p as real;
            s as real <= v < s as real + 1.0 && (v == s as real <==> r == 0)
  {
    assert value as real == s as real * p as real + r as real;
    assert value as real / p as real == s as real + r as real / p as real;
  }

  lemma WholeQuotient(value: int)
    ensures IsQuotient(value as real, value, 0) && Exact(value, 0)
    ensures Shifted(value, 0) == value && Power(1) == 0x100
  {
  }

  // Division by a power of two is exact in floating point.
  method Divide(value: int, mul: nat, ghost k: nat) returns (v: real)
    requires mul == Power(k)
    ensures IsQuotient(v, value, k)
  {
    ghost var r := Remainder(value, k);
    RealParts(value, Shifted(value, k), mul, r);
    v := value as real / mul as real;
  }

  // The quotient of a negative number is cut towards zero, and one is taken away unless
  // the division is exact: that is the floor.
  lemma TruncateAndSubtract(v: real, value: int, k: nat)
    requires IsQuotient(v, value, k) && v < 0.0
    ensures Trunc(v) - (if Exact(value, k) then 0 else 1) == Shifted(value, k)
    ensures v.Floor == Shifted(value, k)
  {
    var s := Shifted(value, k);
    if Exact(value, k) {
      assert (-v).Floor == -s;
    } else {
      assert (-v).Floor == -s - 1;
    }
  }

  lemma Int32LowByte(v: real, sub: int)
    ensures (Int32(v) - sub) % 0x100 == (Trunc(v) - sub) % 0x100
  {
    var t := Trunc(v) + 0x8000_0000;
    assert t == 0x1_0000_0000 * (t / 0x1_0000_0000) + t % 0x1_0000_0000;
    assert Int32(v) == Trunc(v) - 0x1_0000_0000 * (t / 0x1_0000_0000);
  }

  // The byte that the writer of negative integers stores, and when it starts to subtract.
  lemma NegativeByte(v: real, value: int, k: nat)
    requires IsQuotient(v, value, k) && v < 0.0
    ensures (Int32(v) - (if Exact(value, k) then 0 else 1)) % 0x100 == Shifted(value, k) % 0x100
    ensures Exact(value, k) ==> Int32(v) % 0x100 == Shifted(value, k) % 0x100
  {
    TruncateAndSubtract(v, value, k);
    Int32LowByte(v, if Exact(value, k) then 0 else 1);
  }

  lemma {:induction false} NegativeStays(value: int, k: nat)
    requires value < 0
    ensures Shifted(value, k) < 0
  {
    if k > 0 { NegativeStays(value, k - 1); }
  }

  // ---------- Where to write and to read ----------

  // The end of what may be used, and how many bytes there are for the field.
  function End(length: nat, stop: Option<nat>): nat {
    if stop.Some? && stop.value < length then stop.value else length
  }

  function Room(length: nat, offset: nat, stop: Option<nat>): nat {
    if offset < End(length, stop) then End(length, stop) - offset else 0
  }

  // The bytes that get into the field: as many as there is room for, and when the field
  // has a declared end they are padded to it.
  function Fit(s: seq<Byte>, room: nat, padded: bool): seq<Byte> {
    if |s| >= room then s[..room]
    else if padded then s + Zeros(room - |s|)
    else s
  }

  function Replaced(old_: seq<Byte>, offset: nat, s: seq<Byte>): seq<Byte>
    requires s != [] ==> offset + |s| <= |old_|
  {
    if s == [] then old_ else old_[..offset] + s + old_[offset + |s|..]
  }

  // ---------- Writing ----------

  // The field holds these bytes, and nothing else changed.
  ghost predicate FieldIs(before: seq<Byte>, now: seq<Byte>, start: nat, w: seq<Byte>) {
    start + |w| <= |before| && now == before[..start] + w + before[start + |w|..]
  }

  lemma FieldGrows(before: seq<Byte>, now: seq<Byte>, start: nat, w: seq<Byte>, b: Byte)
    requires FieldIs(before, now, start, w) && start + |w| < |before|
    ensures FieldIs(before, now[start + |w| := b], start, w + [b])
  {
    assert before[start + |w|..] == [before[start + |w|]] + before[start + |w| + 1..];
  }

  // The bytes in `w` are the first ones of the form of the value.
  ghost predicate WrittenUInt(value: nat, w: seq<Byte>, k: nat) {
    && |w| == k + 1 && Shifted(value, k) >= 0
    && UIntBytes(value) == w[..k] + UIntBytes(Shifted(value, k))
    && w[k] == Shifted(value, k) % 0x100
  }

  // The field holds the first `k + 1` bytes of the form of the value.
  ghost predicate WritingUInt(value: nat, before: seq<Byte>, now: seq<Byte>, start: nat, w: seq<Byte>, k: nat) {
    forall key {:trigger Turns(key)} :: Turns(key) ==> WrittenUInt(value, w, k) && FieldIs(before, now, start, w)
  }

  lemma UIntFirstByte(value: nat, before: seq<Byte>, start: nat)
    requires start < |before|
    ensures WritingUInt(value, before, before[start := value % 0x100], start, [value % 0x100], 0)
  {
    FieldGrows(before, before, start, [], value % 0x100);
    assert [] + [value % 0x100] == [value % 0x100];
  }

  lemma UIntNextByte(value: nat, before: seq<Byte>, now: seq<Byte>, start: nat, w: seq<Byte>, k: nat)
    requires WritingUInt(value, before, now, start, w, k) && Shifted(value, k) >= 0x100
    requires start + k + 1 < |before|
    ensures |now| == |before|
    ensures var b := Shifted(value, k + 1) % 0x100;
            WritingUInt(value, before, now[start + k + 1 := b], start, w + [b], k + 1)
  {
    assert Turns(TheKey);
    var b := Shifted(value, k + 1) % 0x100;
    var next := w + [b];
    assert next[..k + 1] == w == w[..k] + [Shifted(value, k) % 0x100];
    FieldGrows(before, now, start, w, b);
  }

  // What is in the field when the writer stops, at the last byte or for want of room.
  lemma UIntLastByte(value: nat, before: seq<Byte>, now: seq<Byte>, start: nat, w: seq<Byte>, k: nat, room: nat)
    requires WritingUInt(value, before, now, start, w, k) && k < room
    requires Shifted(value, k) < 0x100 || k + 1 == room
    ensures FieldIs(before, now, start, Fit(UIntBytes(value), room, false))
    ensures |Fit(UIntBytes(value), room, false)| == k + 1
  {
    assert Turns(TheKey);
    assert w == w[..k] + [w[k]];
    assert Fit(UIntBytes(value), room, false) == w;
  }

  method FillZeros(buffer: array<Byte>, from: nat, end: nat)
    requires from <= end <= buffer.Length
    modifies buffer
    ensures buffer[..] == old(buffer[..from]) + Zeros(end - from) + old(buffer[end..])
  {
    var i := from;
    while i < end
      invariant from <= i <= end
      invariant forall j :: 0 <= j < from || end <= j < buffer.Length ==> buffer[j] == old(buffer[j])
      invariant forall j :: from <= j < i ==> buffer[j] == 0
    {
      buffer[i] := 0;
      i := i + 1;
    }
  }

  // Stores the low byte of the next quotient.
  method StoreNext(value: nat, buffer: array<Byte>, offset: nat, mul: nat, ghost start: nat, ghost before: seq<Byte>, ghost w: seq<Byte>)
    returns (v: real, ghost more: seq<Byte>)
    requires w != [] && mul == Power(|w|) && offset == start + |w| < buffer.Length == |before|
    requires WritingUInt(value, before, buffer[..], start, w, |w| - 1) && Shifted(value, |w| - 1) >= 0x100
    modifies buffer
    ensures IsQuotient(v, value, |w|)
    ensures |more| == |w| + 1 && WritingUInt(value, before, buffer[..], start, more, |w|)
  {
    more := w + [Shifted(value, |w|) % 0x100];
    v := Divide(value, mul, |w|);
    assert v.Floor == Shifted(value, |w|);
    UIntNextByte(value, before, buffer[..], start, w, |w| - 1);
    buffer[offset] := v.Floor % 0x100;
  }

  predicate TopBit(s: seq<Byte>) { s != [] && s[|s| - 1] >= 0x80 }

  lemma UnsignedLastByte(v: real, value: nat, before: seq<Byte>, now: seq<Byte>, start: nat, w: seq<Byte>, k: nat, room: nat)
    requires IsQuotient(v, value, k)
    requires WritingUInt(value, before, now, start, w, k) && k < room
    requires v < 256.0 || k + 1 == room
    ensures FieldIs(before, now, start, Fit(UIntBytes(value), room, false))
    ensures |Fit(UIntBytes(value), room, false)| == k + 1
    ensures k + 1 < room ==> (v >= 128.0 <==> TopBit(UIntBytes(value)))
  {
    assert Turns(TheKey);
    UIntLastByte(value, before, now, start, w, k, room);
    if k + 1 < room {
      assert w == w[..k] + [w[k]];
      assert UIntBytes(value) == w;
    }
  }

  method StoreFirst(value: nat, buffer: array<Byte>, start: nat) returns (ghost w: seq<Byte>)
    requires start < buffer.Length
    modifies buffer
    ensures |w| == 1 && WritingUInt(value, old(buffer[..]), buffer[..], start, w, 0)
    ensures IsQuotient(value as real, value, 0)
  {
    UIntFirstByte(value, buffer[..], start);
    WholeQuotient(value);
    buffer[start] := value % 0x100;
    w := [value % 0x100];
  }

  // Stores further bytes while the quotient is large and there is room.
  method ContinueUnsigned(value: nat, first: real, buffer: array<Byte>, start: nat, end: nat,
                          ghost before: seq<Byte>, ghost one: seq<Byte>)
    returns (offset: nat, v: real, ghost w: seq<Byte>)
    requires start < end <= buffer.Length == |before| && |one| == 1
    requires WritingUInt(value, before, buffer[..], start, one, 0)
    requires IsQuotient(first, value, 0) && first >= 256.0
    modifies buffer
    ensures |w| > 0 && offset + 1 == start + |w| <= end
    ensures WritingUInt(value, before, buffer[..], start, w, |w| - 1)
    ensures IsQuotient(v, value, |w| - 1)
    ensures v < 256.0 || offset + 1 == end
  {
    offset, v, w := start, first, one;
    var mul: nat := 0x100;
    while offset < end - 1
      invariant |w| > 0 && offset + 1 == start + |w| <= end
      invariant mul == Power(|w|)
      invariant WritingUInt(value, before, buffer[..], start, w, |w| - 1)
      invariant IsQuotient(v, value, |w| - 1) && v >= 256.0
    {
      offset := offset + 1;
      v, w := StoreNext(value, buffer, offset, mul, start, before, w);
      if v < 256.0 { break; }
      mul := mul * 0x100;
    }
  }

  // The first bytes of an unsigned integer, up to `end` at most, and the last quotient.
  method WriteUnsigned(value: nat, buffer: array<Byte>, start: nat, end: nat) returns (offset: nat, v: real)
    requires value <= MAX_ALLOWED_INTEGER && start < end <= buffer.Length
    modifies buffer
    ensures var s := Fit(UIntBytes(value), end - start, false);
            offset == start + |s| && FieldIs(old(buffer[..]), buffer[..], start, s)
    ensures offset < end ==> (v >= 128.0 <==> TopBit(UIntBytes(value)))
  {
    ghost var before := buffer[..];
    offset := start;
    v := value as real;
    ghost var w := StoreFirst(value, buffer, start);
    if v >= 256.0 { offset, v, w := ContinueUnsigned(value, v, buffer, start, end, before, w); }
    UnsignedLastByte(v, value, before, buffer[..], start, w, |w| - 1, end - start);
    offset := offset + 1;
  }

  lemma PaddedField(old_: seq<Byte>, start: nat, s: seq<Byte>, end: nat)
    requires s != [] && start + |s| <= end <= |old_|
    ensures var b := Replaced(old_, start, s);
            b[..start + |s|] + Zeros(end - start - |s|) + b[end..]
              == Replaced(old_, start, s + Zeros(end - start - |s|))
  {
    var b := Replaced(old_, start, s);
    assert b[..start + |s|] == old_[..start] + s;
    assert b[end..] == old_[end..];
  }

  lemma FitPadded(s: seq<Byte>, room: nat)
    requires s != [] && room > 0
    ensures var t := Fit(s, room, false);
            0 < |t| <= room && Fit(s, room, true) == t + Zeros(room - |t|)
  {
    assert s[..|s|] == s;
  }

  // Fills the rest of a field that has a declared end.
  method Pad(buffer: array<Byte>, start: nat, from: nat, end: nat, padded: bool, ghost before: seq<Byte>, ghost s: seq<Byte>)
    returns (offset: nat)
    requires start < end <= buffer.Length == |before| && s != []
    requires from == start + |Fit(s, end - start, false)|
    requires FieldIs(before, buffer[..], start, Fit(s, end - start, false))
    modifies buffer
    ensures var w := Fit(s, end - start, padded);
            offset == start + |w| && buffer[..] == Replaced(before, start, w)
  {
    offset := from;
    if padded {
      FitPadded(s, end - start);
      PaddedField(before, start, Fit(s, end - start, false), end);
      FillZeros(buffer, offset, end);
      offset := end;
    }
  }

  // Writes an unsigned integer and gives the offset after it.
  method WriteBufUIntLE(value: nat, buffer: array<Byte>, start: nat, stop: Option<nat>) returns (r: Outcome<nat>)
    modifies buffer
    ensures value > MAX_ALLOWED_INTEGER ==> r == AboveMaximum && buffer[..] == old(buffer[..])
    ensures value <= MAX_ALLOWED_INTEGER ==>
      var s := Fit(UIntBytes(value), Room(buffer.Length, start, stop), stop.Some?);
      && r == Done(start + |s|)
      && buffer[..] == Replaced(old(buffer[..]), start, s)
  {
    if value > MAX_ALLOWED_INTEGER { return AboveMaximum; }
    var end := End(buffer.Length, stop);
    if start >= end { return Done(start); }
    ghost var before := buffer[..];
    var offset, _ := WriteUnsigned(value, buffer, start, end);
    offset := Pad(buffer, start, offset, end, stop.Some?, before, UIntBytes(value));
    r := Done(offset);
  }

  ghost predicate WrittenInt(value: int, w: seq<Byte>, k: nat) {
    && |w| == k + 1
    && IntBytes(value) == w[..k] + IntBytes(Shifted(value, k))
    && w[k] == Shifted(value, k) % 0x100
  }

  // The field holds the first `k + 1` bytes of the form of the value.
  ghost predicate WritingInt(value: int, before: seq<Byte>, now: seq<Byte>, start: nat, w: seq<Byte>, k: nat) {
    forall key {:trigger Turns(key)} :: Turns(key) ==> WrittenInt(value, w, k) && FieldIs(before, now, start, w)
  }

  lemma IntFirstByte(value: int, before: seq<Byte>, start: nat)
    requires start < |before|
    ensures WritingInt(value, before, before[start := value % 0x100], start, [value % 0x100], 0)
  {
    FieldGrows(before, before, start, [], value % 0x100);
    assert [] + [value % 0x100] == [value % 0x100];
  }

  lemma IntNextByte(value: int, before: seq<Byte>, now: seq<Byte>, start: nat, w: seq<Byte>, k: nat)
    requires WritingInt(value, before, now, start, w, k) && !(-0x80 <= Shifted(value, k) < 0x80)
    requires start + k + 1 < |before|
    ensures |now| == |before|
    ensures var b := Shifted(value, k + 1) % 0x100;
            WritingInt(value, before, now[start + k + 1 := b], start, w + [b], k + 1)
  {
    assert Turns(TheKey);
    var b := Shifted(value, k + 1) % 0x100;
    var next := w + [b];
    assert next[..k + 1] == w == w[..k] + [Shifted(value, k) % 0x100];
    FieldGrows(before, now, start, w, b);
  }

  // What is in the field when the writer stops, at the last byte or for want of room.
  lemma IntLastByte(value: int, before: seq<Byte>, now: seq<Byte>, start: nat, w: seq<Byte>, k: nat, room: nat)
    requires WritingInt(value, before, now, start, w, k) && k < room
    requires -0x80 <= Shifted(value, k) < 0x80 || k + 1 == room
    ensures FieldIs(before, now, start, Fit(IntBytes(value), room, false))
    ensures |Fit(IntBytes(value), room, false)| == k + 1
  {
    assert Turns(TheKey);
    assert w == w[..k] + [w[k]];
    assert Fit(IntBytes(value), room, false) == w;
  }

  // Stores the low byte of the next quotient of a negative integer, cut towards zero and
  // lowered by `sub`.
  method StoreNextNegative(value: int, buffer: array<Byte>, offset: nat, mul: nat, sub: int,
                           ghost start: nat, ghost before: seq<Byte>, ghost w: seq<Byte>)
    returns (v: real, ghost more: seq<Byte>)
    requires value < 0 && w != [] && mul == Power(|w|) && offset == start + |w| < buffer.Length == |before|
    requires sub == if Exact(value, |w|) then 0 else 1
    requires WritingInt(value, before, buffer[..], start, w, |w| - 1) && Shifted(value, |w| - 1) < -0x80
    modifies buffer
    ensures IsQuotient(v, value, |w|)
    ensures |more| == |w| + 1 && WritingInt(value, before, buffer[..], start, more, |w|)
  {
    more := w + [Shifted(value, |w|) % 0x100];
    v := Divide(value, mul, |w|);
    NegativeStays(value, |w|);
    NegativeByte(v, value, |w|);
    IntNextByte(value, before, buffer[..], start, w, |w| - 1);
    buffer[offset] := (Int32(v) - sub) % 0x100;
  }

  // Whether to subtract one, from the next byte on.
  method Lower(v: real, value: int, sub: int, ghost k: nat) returns (next: int)
    requires value < 0 && IsQuotient(v, value, k) && sub == if Exact(value, k) then 0 else 1
    ensures next == if Exact(value, k + 1) then 0 else 1
  {
    NegativeStays(value, k);
    NegativeByte(v, value, k);
    next := if sub == 0 && Int32(v) % 0x100 != 0 then 1 else sub;
  }

  method StoreFirstInt(value: int, buffer: array<Byte>, start: nat) returns (ghost w: seq<Byte>)
    requires start < buffer.Length
    modifies buffer
    ensures |w| == 1 && WritingInt(value, old(buffer[..]), buffer[..], start, w, 0)
    ensures IsQuotient(value as real, value, 0)
  {
    IntFirstByte(value, buffer[..], start);
    WholeQuotient(value);
    buffer[start] := value % 0x100;
    w := [value % 0x100];
  }

  // Stores further bytes while the quotient is far from zero and there is room.
  method ContinueNegative(value: int, first: real, buffer: array<Byte>, start: nat, end: nat,
                          ghost before: seq<Byte>, ghost one: seq<Byte>)
    returns (offset: nat, v: real, ghost w: seq<Byte>)
    requires value < 0 && start < end <= buffer.Length == |before| && |one| == 1
    requires WritingInt(value, before, buffer[..], start, one, 0)
    requires IsQuotient(first, value, 0) && first < -128.0
    modifies buffer
    ensures |w| > 0 && offset + 1 == start + |w| <= end
    ensures WritingInt(value, before, buffer[..], start, w, |w| - 1)
    ensures IsQuotient(v, value, |w| - 1)
    ensures v >= -128.0 || offset + 1 == end
  {
    offset, v, w := start, first, one;
    var mul: nat := 0x100;
    var sub := 0;
    while offset < end - 1
      invariant |w| > 0 && offset + 1 == start + |w| <= end
      invariant mul == Power(|w|)
      invariant sub == if Exact(value, |w| - 1) then 0 else 1
      invariant WritingInt(value, before, buffer[..], start, w, |w| - 1)
      invariant IsQuotient(v, value, |w| - 1) && v < -128.0
    {
      sub := Lower(v, value, sub, |w| - 1);
      offset := offset + 1;
      NegativeStays(value, |w|);
      v, w := StoreNextNegative(value, buffer, offset, mul, sub, start, before, w);
      if v >= -128.0 { break; }
      mul := mul * 0x100;
    }
  }

  lemma NegativeLastByte(v: real, value: int, before: seq<Byte>, now: seq<Byte>, start: nat, w: seq<Byte>, k: nat, room: nat)
    requires value < 0 && IsQuotient(v, value, k)
    requires WritingInt(value, before, now, start, w, k) && k < room
    requires v >= -128.0 || k + 1 == room
    ensures FieldIs(before, now, start, Fit(IntBytes(value), room, false))
    ensures |Fit(IntBytes(value), room, false)| == k + 1
  {
    NegativeStays(value, k);
    IntLastByte(value, before, now, start, w, k, room);
  }

  // The first bytes of a negative integer, up to `end` at most.
  method WriteNegative(value: int, buffer: array<Byte>, start: nat, end: nat) returns (offset: nat)
    requires MIN_ALLOWED_INTEGER <= value < 0 && start < end <= buffer.Length
    modifies buffer
    ensures var s := Fit(IntBytes(value), end - start, false);
            offset == start + |s| && FieldIs(old(buffer[..]), buffer[..], start, s)
  {
    ghost var before := buffer[..];
    offset := start;
    var v := value as real;
    ghost var w := StoreFirstInt(value, buffer, start);
    if v < -128.0 { offset, v, w := ContinueNegative(value, v, buffer, start, end, before, w); }
    NegativeLastByte(v, value, before, buffer[..], start, w, |w| - 1, end - start);
    offset := offset + 1;
  }

  // An integer that is not negative has the unsigned form, and a zero after it when that
  // form ends with the top bit.
  lemma {:induction false} PositiveForm(value: nat)
    ensures var s := UIntBytes(value);
            IntBytes(value) == if TopBit(s) then s + [0] else s
  {
    if value >= 0x100 {
      PositiveForm(value / 0x100);
    }
  }

  lemma PositiveFits(s: seq<Byte>, room: nat)
    requires s != [] && room > 0
    ensures |s| < room ==> Fit(s, room, false) == s && Fit(s + [0], room, false) == s + [0]
    ensures |s| >= room ==> Fit(s, room, false) == Fit(s + [0], room, false) && |Fit(s, room, false)| == room
  {
    assert s[..|s|] == s;
  }

  // An integer that is not negative, up to `end` at most.
  method WritePositive(value: nat, buffer: array<Byte>, start: nat, end: nat) returns (offset: nat)
    requires value <= MAX_ALLOWED_INTEGER && start < end <= buffer.Length
    modifies buffer
    ensures var s := Fit(IntBytes(value), end - start, false);
            offset == start + |s| && FieldIs(old(buffer[..]), buffer[..], start, s)
  {
    ghost var before := buffer[..];
    ghost var s := UIntBytes(value);
    PositiveForm(value);
    PositiveFits(s, end - start);
    var v;
    offset, v := WriteUnsigned(value, buffer, start, end);
    if v >= 128.0 && offset < end {
      FieldGrows(before, buffer[..], start, s, 0);
      buffer[offset] := 0;
      offset := offset + 1;
    }
  }

  // Writes a signed integer and gives the offset after it.
  method WriteBufIntLE(value: int, buffer: array<Byte>, start: nat, stop: Option<nat>) returns (r: Outcome<nat>)
    modifies buffer
    ensures value > MAX_ALLOWED_INTEGER ==> r == AboveMaximum && buffer[..] == old(buffer[..])
    ensures value < MIN_ALLOWED_INTEGER ==> r == BelowMinimum && buffer[..] == old(buffer[..])
    ensures MIN_ALLOWED_INTEGER <= value <= MAX_ALLOWED_INTEGER ==>
      var s := Fit(IntBytes(value), Room(buffer.Length, start, stop), stop.Some?);
      && r == Done(start + |s|)
      && buffer[..] == Replaced(old(buffer[..]), start, s)
  {
    if value > MAX_ALLOWED_INTEGER { return AboveMaximum; }
    if value < MIN_ALLOWED_INTEGER { return BelowMinimum; }
    var end := End(buffer.Length, stop);
    if start >= end { return Done(start); }
    ghost var before := buffer[..];
    var offset: nat;
    if value < 0 {
      offset := WriteNegative(value, buffer, start, end);
    } else {
      offset := WritePositive(value, buffer, start, end);
    }
    offset := Pad(buffer, start, offset, end, stop.Some?, before, IntBytes(value));
    r := Done(offset);
  }

  // ---------- Reading ----------

  function Field(buffer: seq<Byte>, start: nat, stop: Option<nat>): seq<Byte> {
    if start < End(|buffer|, stop) then buffer[start..End(|buffer|, stop)] else []
  }

  lemma Distribute(mul: int, b: int, rest: int)
    ensures mul * (b + 0x100 * rest) == b * mul + (mul * 0x100) * rest
  {
    assert mul * (b + 0x100 * rest) == mul * b + mul * (0x100 * rest);
    assert mul * (0x100 * rest) == (mul * 0x100) * rest;
  }

  lemma Grown(val: int, mul: nat, b: Byte, whole: int, rest: int)
    requires whole == b + 0x100 * rest && 0 <= val < mul
    ensures val + mul * whole == (val + b * mul) + (mul * 0x100) * rest
    ensures 0 <= val + b * mul < mul * 0x100
  {
    Distribute(mul, b, rest);
    Multiple(b, mul);
  }

  // The first `n` bytes of the field are added up, the next one is worth `mul`.
  ghost predicate ReadUIntSoFar(s: seq<Byte>, n: nat, val: int, mul: nat) {
    n <= |s| && 0 <= val < mul && UIntOf(s) == val + mul * UIntOf(s[n..])
  }

  lemma ReadOneMoreUInt(s: seq<Byte>, n: nat, val: int, mul: nat)
    requires n < |s| && ReadUIntSoFar(s, n, val, mul)
    ensures ReadUIntSoFar(s, n + 1, val + s[n] * mul, mul * 0x100)
  {
    var rest := s[n..];
    assert rest[1..] == s[n + 1..] && rest[0] == s[n];
    Grown(val, mul, s[n], UIntOf(rest), UIntOf(rest[1..]));
  }

  lemma ReadFirstUInt(s: seq<Byte>)
    requires s != []
    ensures ReadUIntSoFar(s, 1, s[0], 0x100)
  {
  }

  lemma ReadAllUInt(s: seq<Byte>, val: int, mul: nat)
    requires ReadUIntSoFar(s, |s|, val, mul)
    ensures UIntOf(s) == val
  {
    assert s[|s|..] == [];
    assert mul * UIntOf([]) == 0;
  }

  method ReadBufUIntLE(buffer: array<Byte>, start: nat, stop: Option<nat>) returns (r: Outcome<Option<nat>>)
    ensures var s := Field(buffer[..], start, stop);
            r == if s == [] then Done(None)
                 else if UIntOf(s) > MAX_ALLOWED_INTEGER then AboveMaximum
                 else Done(Some(UIntOf(s)))
  {
    var end := End(buffer.Length, stop);
    if start >= end { return Done(None); }
    ghost var s := buffer[start..end];
    var offset := start;
    var val: nat := buffer[offset];
    var mul: nat := 1;
    ReadFirstUInt(s);
    while offset < end - 1
      invariant start <= offset < end
      invariant ReadUIntSoFar(s, offset + 1 - start, val, mul * 0x100)
    {
      offset := offset + 1;
      mul := mul * 0x100;
      ReadOneMoreUInt(s, offset - start, val, mul);
      assert s[offset - start] == buffer[offset];
      val := val + buffer[offset] * mul;
    }
    ReadAllUInt(s, val, mul * 0x100);
    if val > MAX_ALLOWED_INTEGER { return AboveMaximum; }
    r := Done(Some(val));
  }

  ghost predicate ReadSoFar(s: seq<Byte>, n: nat, val: int, mul: nat) {
    n < |s| && 0 <= val < mul && IntOf(s) == val + mul * IntOf(s[n..])
  }

  lemma ReadOneMore(s: seq<Byte>, n: nat, val: int, mul: nat)
    requires n + 1 < |s| && ReadSoFar(s, n, val, mul)
    ensures ReadSoFar(s, n + 1, val + s[n] * mul, mul * 0x100)
  {
    var rest := s[n..];
    assert rest[1..] == s[n + 1..] && rest[0] == s[n];
    Grown(val, mul, s[n], IntOf(rest), IntOf(rest[1..]));
  }

  // The sign decides on which side of zero the result is.
  lemma ReadSign(s: seq<Byte>, val: int, mul: nat)
    requires s != [] && ReadSoFar(s, |s| - 1, val, mul)
    ensures var sign := s[|s| - 1];
            && (sign >= 0x80 ==> IntOf(s) == val + (sign * mul - mul * 0x100) < 0)
            && (sign < 0x80 ==> IntOf(s) == val + sign * mul >= 0)
  {
    assert s[|s| - 1..] == [s[|s| - 1]];
    SignTerm(s[|s| - 1], mul);
  }

  lemma SignTerm(sign: Byte, mul: nat)
    ensures mul * sign == sign * mul >= 0
    ensures mul * (sign - 0x100) == sign * mul - mul * 0x100 <= 0 - mul
  {
    assert mul * (0x100 - sign) >= mul;
  }

  method ReadBufIntLE(buffer: array<Byte>, start: nat, stop: Option<nat>) returns (r: Outcome<Option<int>>)
    ensures var s := Field(buffer[..], start, stop);
            r == if s == [] then Done(None)
                 else if IntOf(s) > MAX_ALLOWED_INTEGER then AboveMaximum
                 else if IntOf(s) < MIN_ALLOWED_INTEGER then BelowMinimum
                 else Done(Some(IntOf(s)))
  {
    var end := End(buffer.Length, stop);
    if start >= end { return Done(None); }
    ghost var s := buffer[start..end];
    var offset := start;
    var val: int, mul: nat := 0, 1;
    while offset < end - 1
      invariant start <= offset < end
      invariant ReadSoFar(s, offset - start, val, mul)
    {
      ReadOneMore(s, offset - start, val, mul);
      val := val + buffer[offset] * mul;
      offset := offset + 1;
      mul := mul * 0x100;
    }
    ReadSign(s, val, mul);
    var sign := buffer[offset];
    if sign >= 0x80 {
      val := val + (sign * mul - mul * 0x100);
      if val < MIN_ALLOWED_INTEGER { return BelowMinimum; }
    } else {
      val := val + sign * mul;
      if val > MAX_ALLOWED_INTEGER { return AboveMaximum; }
    }
    r := Done(Some(val));
  }

  // What was written to a large enough field is what is read from it.
  lemma FieldReadsBack(old_: seq<Byte>, start: nat, room: nat, value: int)
    requires MIN_ALLOWED_INTEGER <= value <= MAX_ALLOWED_INTEGER
    requires room >= 7 && start + room <= |old_|
    ensures var s := Fit(IntBytes(value), room, false);
            Field(Replaced(old_, start, s), start, Some(start + |s|)) == s && s != [] && IntOf(s) == value
    ensures value >= 0 ==>
      var s := Fit(UIntBytes(value), room, true);
      Field(Replaced(old_, start, s), start, Some(start + room)) == s && UIntOf(s) == value
  {
    IntCodec(value, 0, []);
    var s := Fit(IntBytes(value), room, false);
    assert s == IntBytes(value);
    assert Replaced(old_, start, s)[start..start + |s|] == s;
    if value >= 0 { UnsignedReadsBack(old_, start, room, value); }
  }

  lemma UnsignedReadsBack(old_: seq<Byte>, start: nat, room: nat, value: int)
    requires 0 <= value <= MAX_ALLOWED_INTEGER
    requires room >= 7 && start + room <= |old_|
    ensures var s := Fit(UIntBytes(value), room, true);
            Field(Replaced(old_, start, s), start, Some(start + room)) == s && UIntOf(s) == value
  {
    UIntCodec(value, 0, []);
    UIntCodec(value, room - |UIntBytes(value)|, []);
    var u := Fit(UIntBytes(value), room, true);
    assert u == UIntBytes(value) + Zeros(room - |UIntBytes(value)|);
    assert Replaced(old_, start, u)[start..start + room] == u;
  }
}
