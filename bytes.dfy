/** The bounded byte cursor of bytes.go: a read/write/seek view over a
    fixed-size memory buffer. `bytesAlias` is a Go slice of the length given
    at construction, so indexing past it is a bounds-check panic of the Go
    runtime; the model reports it as `panicked`. */
module Bytes {
  import opened SdkTypes

  /** Bytes that Read copies: up to len(p), stopping at size (bytes.go:93-97). */
  function ReadCount(offset: int, size: int, want: nat): (k: nat)
    ensures k <= want
    ensures k < want ==> offset + k >= size
    ensures k > 0 ==> offset + k <= size
  {
    if size - offset <= 0 then 0
    else if want <= size - offset then want
    else size - offset
  }

  /** What Seek leaves behind: the new offset, the returned position, the error. */
  datatype SeekOutcome = SeekOutcome(offset: int, pos: int, err: Option<GoError>)

  /** Seek exactly as bytes.go:131-156 writes it: the value computed for
      SeekCurrent and SeekEnd is overwritten by line 154. */
  function SeekAsWritten(cur: int, size: int, off: int, whence: int): (r: SeekOutcome)
    requires IsInt64(cur) && IsInt64(size) && IsInt64(off)
  {
    if off < 0 then SeekOutcome(cur, cur, Some(InvalidOffset(off)))
    else if whence == SeekStart then
      if off > size then SeekOutcome(off, off, Some(InvalidOffset(off)))
      else SeekOutcome(off, off, None)
    else if whence == SeekCurrent then
      if off > WrapInt64(size - cur) then SeekOutcome(cur, cur, Some(InvalidOffset(off)))
      else SeekOutcome(off, off, None)
    else if whence == SeekEnd then
      if off > size then SeekOutcome(cur, cur, Some(InvalidOffset(off)))
      else SeekOutcome(off, off, None)
    else SeekOutcome(cur, cur, Some(InvalidWhence(whence)))
  }

  /** Seek as the io.Seeker contract and pkg/ptr/bytes_test.go:111-168 expect
      it: the new offset is relative to whence and stays within [0, size]. */
  function IntendedSeek(cur: int, size: int, off: int, whence: int): (r: SeekOutcome)
  {
    var target :=
      if whence == SeekStart then off
      else if whence == SeekCurrent then cur + off
      else size - off;
    if off < 0 then SeekOutcome(cur, cur, Some(InvalidOffset(off)))
    else if whence != SeekStart && whence != SeekCurrent && whence != SeekEnd
    then SeekOutcome(cur, cur, Some(InvalidWhence(whence)))
    else if target < 0 || target > size then SeekOutcome(cur, cur, Some(InvalidOffset(off)))
    else SeekOutcome(target, target, None)
  }

  class BytesReadWriter {
    /** The memory the cursor points into (shared with the owner of the buffer). */
    const alias: array<byte>
    /** len(bytesAlias): the size given at construction. */
    const aliasLen: int
    var offset: int
    var size: int

    ghost predicate Valid()
      reads this
    {
      0 <= aliasLen <= alias.Length && aliasLen <= MaxInt64 &&
      0 <= offset <= MaxInt64 && IsInt64(size)
    }

    constructor Wrap(mem: array<byte>, size: int)
      requires 0 <= size <= mem.Length && size <= MaxInt64
      ensures Valid() && alias == mem && aliasLen == size
      ensures offset == 0 && this.size == size
    {
      alias := mem;
      aliasLen := size;
      offset := 0;
      this.size := size;
    }

    /** Size (bytes.go:119-121). */
    function Size(): (s: int)
      reads this
      ensures s == size
    {
      size
    }

    /** Offset (bytes.go:127-129). */
    function Offset(): (o: int)
      reads this
      ensures o == offset
    {
      offset
    }

    /** SetSize (bytes.go:123-125) accepts any int64, with no bound check. */
    method SetSize(s: int)
      requires Valid() && IsInt64(s)
      modifies this
      ensures Valid() && size == s && offset == old(offset)
    {
      size := s;
    }

    /** Read (bytes.go:90-103): copies byte by byte from the cursor. */
    method Read(p: array<byte>) returns (n: nat, err: Option<GoError>, panicked: bool)
      requires Valid() && p != alias
      modifies this, p
      ensures Valid() && size == old(size)
      ensures var k := ReadCount(old(offset), old(size), p.Length);
        panicked <==> k > 0 && old(offset) + k > aliasLen
      ensures !panicked ==>
        && n == ReadCount(old(offset), old(size), p.Length)
        && offset == old(offset) + n
        && (forall j :: 0 <= j < n ==> p[j] == alias[old(offset) + j])
        && p[n..] == old(p[n..])
        && err == (if n < p.Length then Some(ErrShortBuffer) else None)
    {
      n, err, panicked := 0, None, false;
      var i := 0;
      while i < p.Length
        invariant 0 <= i <= p.Length && n == i
        invariant offset == old(offset) + i
        invariant i > 0 ==> offset <= aliasLen
        invariant i > 0 ==> old(offset) + i <= size
        invariant size == old(size)
        invariant forall j :: 0 <= j < i ==> p[j] == alias[old(offset) + j]
        invariant p[i..] == old(p[i..])
      {
        if offset >= size {
          err := Some(ErrShortBuffer);
          return;
        }
        if offset >= aliasLen {
          panicked := true;
          return;
        }
        p[i] := alias[offset];
        offset := offset + 1;
        n := n + 1;
        i := i + 1;
      }
    }

    /** Write (bytes.go:105-117): copies byte by byte to the cursor. */
    method Write(p: seq<byte>) returns (n: nat, err: Option<GoError>, panicked: bool)
      requires Valid()
      modifies this, alias
      ensures Valid() && size == old(size)
      ensures var k := ReadCount(old(offset), old(size), |p|);
        panicked <==> k > 0 && old(offset) + k > aliasLen
      ensures !panicked ==>
        && n == ReadCount(old(offset), old(size), |p|)
        && offset == old(offset) + n
        && (forall j :: 0 <= j < alias.Length ==>
              alias[j] == if old(offset) <= j < old(offset) + n then p[j - old(offset)] else old(alias[j]))
        && err == (if n < |p| then Some(ErrShortWrite) else None)
    {
      n, err, panicked := 0, None, false;
      var i := 0;
      while i < |p|
        invariant 0 <= i <= |p| && n == i
        invariant offset == old(offset) + i
        invariant i > 0 ==> offset <= aliasLen
        invariant i > 0 ==> old(offset) + i <= size
        invariant size == old(size)
        invariant forall j :: 0 <= j < alias.Length ==>
                    alias[j] == if old(offset) <= j < old(offset) + i then p[j - old(offset)] else old(alias[j])
      {
        if offset >= size {
          err := Some(ErrShortWrite);
          return;
        }
        if offset >= aliasLen {
          panicked := true;
          return;
        }
        alias[offset] := p[i];
        offset := offset + 1;
        n := n + 1;
        i := i + 1;
      }
    }

    /** Seek (bytes.go:131-156). */
    method Seek(off: int, whence: int) returns (pos: int, err: Option<GoError>)
      requires Valid() && IsInt64(off)
      modifies this
      ensures Valid() && size == old(size)
      ensures SeekOutcome(offset, pos, err) == SeekAsWritten(old(offset), old(size), off, whence)
    {
      if off < 0 {
        return offset, Some(InvalidOffset(off));
      }
      if whence == SeekStart {
        offset := off;
        if off > size {
          return offset, Some(InvalidOffset(off));
        }
      } else if whence == SeekCurrent {
        if off > WrapInt64(size - offset) {
          return offset, Some(InvalidOffset(off));
        }
        offset := off + offset;
      } else if whence == SeekEnd {
        if off > size {
          return offset, Some(InvalidOffset(off));
        }
        offset := size - off;
      } else {
        return offset, Some(InvalidWhence(whence));
      }
      offset := off;
      return offset, None;
    }
  }

  /** NewBytesReadWriter (bytes.go:66-81): fails for size < 0 (size > MaxInt
      cannot be an int64 on a 64-bit target). The caller's buffer must hold
      `size` bytes. */
  method NewBytesReadWriter(mem: array<byte>, size: int) returns (r: Result<BytesReadWriter, GoError>)
    requires IsInt64(size) && size <= mem.Length
    ensures r.Err? <==> size < 0
    ensures r.Err? ==> r.error == InvalidSize(size)
    ensures r.Ok? ==> fresh(r.value) && r.value.Valid() && r.value.alias == mem
    ensures r.Ok? ==> r.value.offset == 0 && r.value.size == size && r.value.aliasLen == size
  {
    if size < 0 || size > MaxInt64 {
      return Err(InvalidSize(size));
    }
    var b := new BytesReadWriter.Wrap(mem, size);
    return Ok(b);
  }

  // ---------------------------------------------------------------------
  // Properties of Seek

  /** Whatever the whence, a successful Seek ends with offset == off. */
  lemma SeekLandsOnArgument(cur: int, size: int, off: int, whence: int)
    requires IsInt64(cur) && IsInt64(size) && IsInt64(off)
    ensures var r := SeekAsWritten(cur, size, off, whence);
      r.err.None? ==> r.offset == off && r.pos == off
    ensures var r := SeekAsWritten(cur, size, off, whence);
      r.err.None? <==>
        (off >= 0 && ((whence == SeekStart && off <= size) ||
                      (whence == SeekCurrent && off <= WrapInt64(size - cur)) ||
                      (whence == SeekEnd && off <= size)))
  {
  }

  /** A negative offset or an unknown whence fails and leaves the offset alone. */
  lemma SeekRejectsLeaveOffset(cur: int, size: int, off: int, whence: int)
    requires IsInt64(cur) && IsInt64(size) && IsInt64(off)
    requires off < 0 || (whence != SeekStart && whence != SeekCurrent && whence != SeekEnd)
    ensures SeekAsWritten(cur, size, off, whence).err.Some?
    ensures SeekAsWritten(cur, size, off, whence).offset == cur
  {
  }

  /** The SeekStart error path stores the offset before checking it, so the
      documented 0 <= Offset() <= Size() (bytes.go:60) breaks. */
  lemma SeekStartErrorStoresOffset()
    ensures SeekAsWritten(0, 128, 129, SeekStart) == SeekOutcome(129, 129, Some(InvalidOffset(129)))
    ensures IntendedSeek(0, 128, 129, SeekStart) == SeekOutcome(0, 0, Some(InvalidOffset(129)))
  {
  }

  /** From offset 5, Seek(10, SeekCurrent) lands on 10, where the io.Seeker
      contract (and pkg/ptr/bytes_test.go:125-130) gives 15. */
  lemma SeekCurrentIgnoresCursor()
    ensures SeekAsWritten(5, 128, 10, SeekCurrent) == SeekOutcome(10, 10, None)
    ensures IntendedSeek(5, 128, 10, SeekCurrent) == SeekOutcome(15, 15, None)
  {
  }

  /** The intended Seek keeps 0 <= offset <= size, leaves the offset alone on
      every error, and moves relative to whence on success. */
  lemma IntendedSeekKeepsBounds(cur: int, size: int, off: int, whence: int)
    requires 0 <= cur <= size
    ensures var r := IntendedSeek(cur, size, off, whence);
      0 <= r.offset <= size && r.pos == r.offset &&
      (r.err.Some? ==> r.offset == cur) &&
      (r.err.None? ==> r.offset == (if whence == SeekStart then off
                                    else if whence == SeekCurrent then cur + off
                                    else size - off))
  {
  }

  /** On the rewind the event records use, Seek(0, SeekStart), the source and
      the intended Seek agree. */
  lemma RewindAgrees(cur: int, size: int)
    requires IsInt64(cur) && 0 <= size <= MaxInt64 && 0 <= cur
    ensures SeekAsWritten(cur, size, 0, SeekStart) == IntendedSeek(cur, size, 0, SeekStart)
    ensures SeekAsWritten(cur, size, 0, SeekStart) == SeekOutcome(0, 0, None)
  {
  }

  /** SetSize above the construction length lets Read reach past bytesAlias.
      Over memory of length L, with the cursor at L: a one-byte Read stops
      with io.ErrShortBuffer while the size is L, and panics once SetSize
      has raised the size to L + 1. */
  method GrownSizeReadPanics(mem: array<byte>) returns (before: Option<GoError>, panicked: bool)
    requires mem.Length < MaxInt64
    ensures before == Some(ErrShortBuffer)
    ensures panicked
  {
    var b := new BytesReadWriter.Wrap(mem, mem.Length);
    var pos, err := b.Seek(mem.Length, SeekStart);
    var p := new byte[1];
    var n, stopped;
    n, before, stopped := b.Read(p);
    assert !stopped;
    b.SetSize(mem.Length + 1);
    n, err, panicked := b.Read(p);
  }
}

