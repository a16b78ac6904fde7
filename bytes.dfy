/** Byte buffers, the fixed-width little-endian scalar readers every decoder is
    built from (`data[i]`, `BitConverter.ToUInt16/ToInt16/ToUInt32/ToUInt64/
    ToSingle/ToDouble`, `Convert.ToSByte`), and the failure type that stands for
    the exceptions those readers throw. A little-endian host is assumed. */
module Bytes {

  newtype uint8 = x: int | 0 <= x < 0x100
  newtype int8 = x: int | -0x80 <= x < 0x80
  newtype uint16 = x: int | 0 <= x < 0x1_0000
  newtype int16 = x: int | -0x8000 <= x < 0x8000
  newtype uint32 = x: int | 0 <= x < 0x1_0000_0000
  newtype uint64 = x: int | 0 <= x < 0x1_0000_0000_0000_0000

  /** The raw bit pattern of an IEEE-754 single; its numeric value is not modelled. */
  newtype f32 = x: int | 0 <= x < 0x1_0000_0000
  /** The raw bit pattern of an IEEE-754 double; its numeric value is not modelled. */
  newtype f64 = x: int | 0 <= x < 0x1_0000_0000_0000_0000

  /** A UTF-16 code unit, the .NET `char`. */
  newtype char16 = x: int | 0 <= x < 0x1_0000

  /** One received datagram. */
  type Buffer = seq<uint8>

  /** The outcome of a read or a decode: a value, or the exception the
      source would throw (index out of range, argument out of range,
      overflow, null dereference). Every such exception is caught by the same
      handler in the receive loop, so their kinds are not told apart. */
  datatype Result<+T> = Ok(value: T) | Fail {
    predicate IsFailure() { Fail? }
    function PropagateFailure<U>(): Result<U>
      requires Fail?
    {
      Fail
    }
    function Extract(): T
      requires Ok?
    {
      value
    }
  }

  datatype Option<+T> = None | Some(value: T)

  // ---- Values of fixed-width little-endian fields, for in-range offsets ----

  function U16At(buf: Buffer, at: nat): uint16
    requires at + 2 <= |buf|
  {
    ((buf[at] as int) + 0x100 * (buf[at + 1] as int)) as uint16
  }

  function U32At(buf: Buffer, at: nat): uint32
    requires at + 4 <= |buf|
  {
    ((buf[at] as int) + 0x100 * (buf[at + 1] as int)
      + 0x1_0000 * (buf[at + 2] as int) + 0x100_0000 * (buf[at + 3] as int)) as uint32
  }

  function U64At(buf: Buffer, at: nat): uint64
    requires at + 8 <= |buf|
  {
    ((U32At(buf, at) as int) + 0x1_0000_0000 * (U32At(buf, at + 4) as int)) as uint64
  }

  /** `BitConverter.ToInt16`: the two's-complement reading of two bytes. */
  function I16At(buf: Buffer, at: nat): int16
    requires at + 2 <= |buf|
  {
    var u := U16At(buf, at) as int;
    (if u < 0x8000 then u else u - 0x1_0000) as int16
  }

  function F32At(buf: Buffer, at: nat): f32
    requires at + 4 <= |buf|
  {
    U32At(buf, at) as int as f32
  }

  function F64At(buf: Buffer, at: nat): f64
    requires at + 8 <= |buf|
  {
    U64At(buf, at) as int as f64
  }

  /** The value `Convert.ToSByte` gives for a byte it accepts. */
  function S8At(buf: Buffer, at: nat): int8
    requires at < |buf| && buf[at] <= 127
  {
    buf[at] as int as int8
  }

  // ---- The readers: each fails exactly when the source's call throws ----

  /** `data[at]`. */
  function ReadU8(buf: Buffer, at: nat): Result<uint8>
  {
    if at < |buf| then Ok(buf[at]) else Fail
  }

  /** `BitConverter.ToUInt16(data, at)`. */
  function ReadU16(buf: Buffer, at: nat): Result<uint16>
  {
    if at + 2 <= |buf| then Ok(U16At(buf, at)) else Fail
  }

  /** `BitConverter.ToInt16(data, at)`. */
  function ReadI16(buf: Buffer, at: nat): Result<int16>
  {
    if at + 2 <= |buf| then Ok(I16At(buf, at)) else Fail
  }

  /** `BitConverter.ToUInt32(data, at)`. */
  function ReadU32(buf: Buffer, at: nat): Result<uint32>
  {
    if at + 4 <= |buf| then Ok(U32At(buf, at)) else Fail
  }

  /** `BitConverter.ToUInt64(data, at)`. */
  function ReadU64(buf: Buffer, at: nat): Result<uint64>
  {
    if at + 8 <= |buf| then Ok(U64At(buf, at)) else Fail
  }

  /** `BitConverter.ToSingle(data, at)`, kept as its bit pattern. */
  function ReadF32(buf: Buffer, at: nat): Result<f32>
  {
    if at + 4 <= |buf| then Ok(F32At(buf, at)) else Fail
  }

  /** `BitConverter.ToDouble(data, at)`, kept as its bit pattern. */
  function ReadF64(buf: Buffer, at: nat): Result<f64>
  {
    if at + 8 <= |buf| then Ok(F64At(buf, at)) else Fail
  }

  /** `Convert.ToSByte(byte)`: a range-checked conversion, not a
      reinterpretation; it throws an overflow for every byte above 127. */
  function ToSByte(b: uint8): Result<int8>
  {
    if b <= 127 then Ok(b as int as int8) else Fail
  }

  /** `Convert.ToSByte(data[at])`. */
  function ReadS8(buf: Buffer, at: nat): Result<int8>
  {
    var b :- ReadU8(buf, at);
    ToSByte(b)
  }

  /** `Convert.ToChar(int)`: the code unit with that number; it throws
      outside 0..0xFFFF. */
  function ToChar(n: int): Result<char16>
  {
    if 0 <= n < 0x1_0000 then Ok(n as char16) else Fail
  }

  lemma ReaderFailures(buf: Buffer, at: nat)
    ensures ReadU8(buf, at).Ok? <==> at + 1 <= |buf|
    ensures ReadU16(buf, at).Ok? <==> at + 2 <= |buf|
    ensures ReadI16(buf, at).Ok? <==> at + 2 <= |buf|
    ensures ReadU32(buf, at).Ok? <==> at + 4 <= |buf|
    ensures ReadF32(buf, at).Ok? <==> at + 4 <= |buf|
    ensures ReadU64(buf, at).Ok? <==> at + 8 <= |buf|
    ensures ReadF64(buf, at).Ok? <==> at + 8 <= |buf|
    ensures ReadS8(buf, at).Ok? <==> at < |buf| && buf[at] <= 127
  {
  }

  /** `ToInt16` is the two's-complement reading: it never fails on the value,
      and re-encoding the result modulo 2^16 gives back the unsigned word. */
  lemma I16TwosComplement(buf: Buffer, at: nat)
    requires at + 2 <= |buf|
    ensures (I16At(buf, at) as int) % 0x1_0000 == U16At(buf, at) as int
    ensures I16At(buf, at) < 0 <==> buf[at + 1] >= 0x80
  {
  }

  // ---- Fixed-count arrays ----

  /** Every read in `rs` succeeded; then the decoded values, in the same order. */
  function Collect<T>(rs: seq<Result<T>>): (r: Result<seq<T>>)
    ensures r.Ok? <==> forall k :: 0 <= k < |rs| ==> rs[k].Ok?
    ensures r.Ok? ==> |r.value| == |rs| && forall k :: 0 <= k < |rs| ==> r.value[k] == rs[k].value
  {
    if rs == [] then Ok([])
    else
      match rs[0]
      case Fail => Fail
      case Ok(v) =>
        match Collect(rs[1..])
        case Fail => Fail
        case Ok(vs) => Ok([v] + vs)
  }

  lemma CollectAllOk<T>(rs: seq<Result<T>>, vs: seq<T>)
    requires |rs| == |vs|
    requires forall k :: 0 <= k < |rs| ==> rs[k] == Ok(vs[k])
    ensures Collect(rs) == Ok(vs)
  {
    var r := Collect(rs);
    assert r.value == vs;
  }

  /** The values of `n` consecutive 16-bit words starting at `at`. */
  function U16sAt(buf: Buffer, at: nat, n: nat): seq<uint16>
    requires at + 2 * n <= |buf|
  {
    seq(n, k requires 0 <= k < n => U16At(buf, at + 2 * k))
  }

  /** The values of `n` consecutive singles starting at `at`. */
  function F32sAt(buf: Buffer, at: nat, n: nat): seq<f32>
    requires at + 4 * n <= |buf|
  {
    seq(n, k requires 0 <= k < n => F32At(buf, at + 4 * k))
  }

  /** A fixed-count byte array read element by element: it fails unless all
      `n` bytes are in the buffer. */
  function ByteArray(buf: Buffer, at: nat, n: nat): Result<seq<uint8>>
  {
    if at + n <= |buf| then Ok(buf[at..at + n]) else Fail
  }

  function U16Array(buf: Buffer, at: nat, n: nat): Result<seq<uint16>>
  {
    if at + 2 * n <= |buf| then Ok(U16sAt(buf, at, n)) else Fail
  }

  function F32Array(buf: Buffer, at: nat, n: nat): Result<seq<f32>>
  {
    if at + 4 * n <= |buf| then Ok(F32sAt(buf, at, n)) else Fail
  }

  /** A name array filled with `Convert.ToChar(cursor)` while the cursor
      advances from `at`: the code units `at`, `at + 1`, ..., which fail
      only once the cursor passes 0xFFFF. No byte of the buffer is read. */
  function CursorChars(at: nat, n: nat): Result<seq<char16>>
  {
    if at + n <= 0x1_0000 then Ok(seq(n, k requires 0 <= k < n => (at + k) as char16)) else Fail
  }

  /** An inner loop that copies `n` consecutive bytes into a fresh array,
      advancing the cursor by one per byte. */
  method ReadBytes(buf: Buffer, at: nat, n: nat) returns (r: Result<seq<uint8>>, next: nat)
    requires n > 0
    ensures r == ByteArray(buf, at, n)
    ensures r.Ok? ==> next == at + n
  {
    var a := new uint8[n];
    var cursor := at;
    next := at;
    for x := 0 to n
      invariant cursor == at + x
      invariant x == 0 || at + x <= |buf|
      invariant forall k :: 0 <= k < x ==> a[k] == buf[at + k]
    {
      var v := ReadU8(buf, cursor);
      if v.Fail? {
        r := Fail;
        return;
      }
      a[x] := v.value;
      cursor := cursor + 1;
    }
    r, next := Ok(a[..]), cursor;
    assert a[..] == buf[at..at + n];
  }

  /** An inner loop that reads `n` consecutive 16-bit words, advancing the
      cursor by two per word. */
  method ReadU16s(buf: Buffer, at: nat, n: nat) returns (r: Result<seq<uint16>>, next: nat)
    requires n > 0
    ensures r == U16Array(buf, at, n)
    ensures r.Ok? ==> next == at + 2 * n
  {
    var a := new uint16[n];
    var cursor := at;
    next := at;
    for x := 0 to n
      invariant cursor == at + 2 * x
      invariant x == 0 || at + 2 * x <= |buf|
      invariant forall k :: 0 <= k < x ==> a[k] == U16At(buf, at + 2 * k)
    {
      var v := ReadU16(buf, cursor);
      if v.Fail? {
        r := Fail;
        return;
      }
      a[x] := v.value;
      cursor := cursor + 2;
    }
    r, next := Ok(a[..]), cursor;
    assert a[..] == U16sAt(buf, at, n);
  }

  /** An inner loop that reads `n` consecutive singles, advancing the cursor
      by four per value. */
  method ReadF32s(buf: Buffer, at: nat, n: nat) returns (r: Result<seq<f32>>, next: nat)
    requires n > 0
    ensures r == F32Array(buf, at, n)
    ensures r.Ok? ==> next == at + 4 * n
  {
    var a := new f32[n];
    var cursor := at;
    next := at;
    for x := 0 to n
      invariant cursor == at + 4 * x
      invariant x == 0 || at + 4 * x <= |buf|
      invariant forall k :: 0 <= k < x ==> a[k] == F32At(buf, at + 4 * k)
    {
      var v := ReadF32(buf, cursor);
      if v.Fail? {
        r := Fail;
        return;
      }
      a[x] := v.value;
      cursor := cursor + 4;
    }
    r, next := Ok(a[..]), cursor;
    assert a[..] == F32sAt(buf, at, n);
  }

  /** The name loop: each slot gets the character whose code is the cursor
      itself, and the cursor advances by one. */
  method ReadCursorChars(at: nat, n: nat) returns (r: Result<seq<char16>>, next: nat)
    requires n > 0
    ensures r == CursorChars(at, n)
    ensures r.Ok? ==> next == at + n
  {
    var a := new char16[n];
    var cursor := at;
    next := at;
    for x := 0 to n
      invariant cursor == at + x
      invariant x == 0 || at + x <= 0x1_0000
      invariant forall k :: 0 <= k < x ==> a[k] as int == at + k
    {
      var ch := ToChar(cursor);
      if ch.Fail? {
        r := Fail;
        return;
      }
      a[x] := ch.value;
      cursor := cursor + 1;
    }
    r, next := Ok(a[..]), cursor;
    assert a[..] == CursorChars(at, n).value;
  }
}
