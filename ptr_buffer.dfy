/** The `ptr.BytesReadWriter` that pkg/sdk builds its events on. Its source
    is not part of this model; the class below is one implementation of the
    behaviour pkg/ptr/bytes_test.go pins down, and pkg/sdk relies only on
    the contracts stated here:
    - construction fails for a nil buffer, a negative capacity, and a
      length outside 0..capacity;
    - SetLen clamps the length to 0..capacity;
    - Read copies up to the length and reports io.EOF once nothing is left;
    - Write copies up to the length and reports io.ErrShortWrite exactly
      when it could not take every byte;
    - Seek follows the io.Seeker contract within 0..length. */
module PtrBuffer {
  import opened SdkTypes
  import opened Bytes

  function Min(a: int, b: int): int { if a <= b then a else b }

  class BytesReadWriter {
    const buffer: array<byte>
    const capacity: int
    var len: int
    var offset: int

    ghost predicate Valid()
      reads this
    {
      0 <= len <= capacity <= buffer.Length && 0 <= offset
    }

    constructor Wrap(buffer: array<byte>, len: int, capacity: int)
      requires 0 <= len <= capacity <= buffer.Length
      ensures Valid() && this.buffer == buffer && this.capacity == capacity
      ensures this.len == len && offset == 0
    {
      this.buffer := buffer;
      this.capacity := capacity;
      this.len := len;
      offset := 0;
    }

    /** Len, bounded by SetLen (pkg/ptr/bytes_test.go:222-252). */
    method SetLen(l: int)
      requires Valid()
      modifies this
      ensures Valid() && offset == old(offset)
      ensures len == (if l < 0 then 0 else if l > capacity then capacity else l)
    {
      len := if l < 0 then 0 else if l > capacity then capacity else l;
    }

    /** Read (pkg/ptr/bytes_test.go:170-192, 254-272). */
    method Read(p: array<byte>) returns (n: nat, err: Option<GoError>)
      requires Valid() && p != buffer
      modifies this, p
      ensures Valid() && len == old(len)
      ensures old(offset) >= len ==> n == 0 && err == Some(IoEOF) && offset == old(offset)
      ensures old(offset) < len ==>
        && n == Min(p.Length, len - old(offset)) && err == None
        && offset == old(offset) + n
        && (forall j :: 0 <= j < n ==> p[j] == buffer[old(offset) + j])
      ensures forall j :: n <= j < p.Length ==> p[j] == old(p[j])
    {
      if offset >= len {
        return 0, Some(IoEOF);
      }
      n := Min(p.Length, len - offset);
      var start := offset;
      forall j | 0 <= j < n {
        p[j] := buffer[start + j];
      }
      offset := offset + n;
      err := None;
    }

    /** Write (pkg/ptr/bytes_test.go:274-282): the error is set exactly when
        fewer than |p| bytes fit below the length. */
    method Write(p: seq<byte>) returns (n: nat, err: Option<GoError>)
      requires Valid()
      modifies this, buffer
      ensures Valid() && len == old(len)
      ensures n == (if old(offset) >= len then 0 else Min(|p|, len - old(offset)))
      ensures offset == old(offset) + n
      ensures err == (if n < |p| then Some(ErrShortWrite) else None)
      ensures forall j :: 0 <= j < buffer.Length ==>
        buffer[j] == if old(offset) <= j < old(offset) + n then p[j - old(offset)] else old(buffer[j])
    {
      n := if offset >= len then 0 else Min(|p|, len - offset);
      var start := offset;
      forall j | start <= j < start + n {
        buffer[j] := p[j - start];
      }
      offset := offset + n;
      err := if n < |p| then Some(ErrShortWrite) else None;
    }

    /** Seek (pkg/ptr/bytes_test.go:111-168), relative to whence. */
    method Seek(off: int, whence: int) returns (pos: int, err: Option<GoError>)
      requires Valid()
      modifies this
      ensures Valid() && len == old(len)
      ensures SeekOutcome(offset, pos, err) == IntendedSeek(old(offset), len, off, whence)
    {
      var r := IntendedSeek(offset, len, off, whence);
      offset := r.offset;
      return r.pos, r.err;
    }
  }

  /** NewBytesReadWriter (pkg/ptr/bytes_test.go:41-68). */
  method NewBytesReadWriter(buffer: Option<array<byte>>, len: int, capacity: int)
    returns (r: Result<BytesReadWriter, GoError>)
    requires buffer.Some? ==> capacity <= buffer.value.Length
    ensures r.Ok? <==> buffer.Some? && 0 <= capacity && 0 <= len <= capacity
    ensures r.Ok? ==> fresh(r.value) && r.value.Valid() && r.value.buffer == buffer.value
    ensures r.Ok? ==> r.value.len == len && r.value.capacity == capacity && r.value.offset == 0
  {
    if buffer.None? {
      return Err(NilBuffer);
    }
    if capacity < 0 {
      return Err(InvalidCapacity(capacity));
    }
    if len < 0 || len > capacity {
      return Err(InvalidLength(len));
    }
    var b := new BytesReadWriter.Wrap(buffer.value, len, capacity);
    return Ok(b);
  }
}
