/** The `ptr.StringBuffer` used for every C string the SDK hands to the
    framework. Its source is not part of this model; its behaviour is the
    one pkg/ptr/string_test.go:58-88 pins down: empty with a nil C pointer
    until the first Write, then holding the last string written. Two parts
    go beyond that test: Free leaves the buffer empty, and the string is
    held whole even when it contains a NUL, which a C reader would stop at. */
module StringBuffers {
  import opened SdkTypes

  class StringBuffer {
    var value: string
    /** Whether a C allocation backs the buffer (CharPtr() != nil). */
    var held: bool

    constructor Empty()
      ensures value == "" && !held
    {
      value := "";
      held := false;
    }

    method Write(s: string)
      modifies this
      ensures value == s && held
    {
      value := s;
      held := true;
    }

    /** CharPtr as the string it points at; None is the nil pointer. */
    function CharPtr(): (p: Option<string>)
      reads this
      ensures p.Some? <==> held
      ensures p.Some? ==> p.value == value
    {
      if held then Some(value) else None
    }

    method Free()
      modifies this
      ensures value == "" && !held
    {
      value := "";
      held := false;
    }
  }
}
