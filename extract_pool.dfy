/** The extraction-request pool of pkg/sdk (pkg/sdk/extract.go): requests
    are created lazily on first access to an index and then reused. Keys
    are Go `uint`s, so the index is converted with a 64-bit wrap. */
module ExtractPool {
  import opened SdkTypes
  import opened CExtract
  import opened StringBuffers

  /** uint(i) for a 64-bit int i. */
  function Key(i: int): (k: nat)
    requires IsInt64(i)
    ensures k < Pow64
    ensures i >= 0 ==> k == i
    ensures i < 0 ==> k >= Pow64 / 2
  {
    if i >= 0 then i else i + Pow64
  }

  class ExtractRequest {
    var req: ExtractField?
    const strBuf: StringBuffer

    constructor New()
      ensures req == null && fresh(strBuf) && strBuf.value == "" && !strBuf.held
    {
      req := null;
      strBuf := new StringBuffer.Empty();
    }

    /** SetPtr (pkg/sdk/extract.go:76-78). */
    method SetPtr(pef: ExtractField?)
      modifies this
      ensures req == pef
    {
      req := pef;
    }

    /** SetStrValue (pkg/sdk/extract.go:92-96): the string goes into the
        request's own buffer, which res_str then points at. */
    method SetStrValue(v: string)
      requires req != null
      modifies strBuf, req
      ensures strBuf.value == v && strBuf.held
      ensures req.resStr == Some(v) && req.fieldPresent
      ensures req.resU64 == old(req.resU64)
    {
      strBuf.Write(v);
      req.resStr := strBuf.CharPtr();
      req.fieldPresent := true;
    }

    /** SetU64Value (pkg/sdk/extract.go:98-101). */
    method SetU64Value(v: int)
      requires req != null && IsUint64(v)
      modifies req
      ensures req.resU64 == v && req.fieldPresent
      ensures req.resStr == old(req.resStr)
    {
      req.resU64 := v;
      req.fieldPresent := true;
    }
  }

  class ExtractRequestPool {
    var reqs: map<nat, ExtractRequest>

    /** Only non-negative indices are ever inserted, and no two entries
        share a request. */
    ghost predicate Valid()
      reads this
    {
      (forall k :: k in reqs ==> k < Pow64 / 2) &&
      (forall k, l :: k in reqs && l in reqs && k != l ==> reqs[k] != reqs[l] && reqs[k].strBuf != reqs[l].strBuf)
    }

    /** The string buffers Free releases. */
    ghost function Buffers(): set<StringBuffer>
      reads this
    {
      set k | k in reqs :: reqs[k].strBuf
    }

    /** NewExtractRequestPool (pkg/sdk/extract.go:64-69). */
    constructor New()
      ensures Valid() && reqs == map[]
    {
      reqs := map[];
    }

    /** Get (pkg/sdk/extract.go:47-56). For a negative index Go returns an
        ExtractRequest interface holding a nil *extractRequest, which is
        itself not nil; null stands for that here. Nothing in the SDK asks
        for a negative index. */
    method Get(requestIndex: int) returns (r: ExtractRequest?)
      requires Valid() && IsInt64(requestIndex)
      modifies this
      ensures Valid()
      ensures Key(requestIndex) in old(reqs) ==> r == old(reqs)[Key(requestIndex)] && reqs == old(reqs)
      ensures requestIndex < 0 ==> r == null && reqs == old(reqs)
      ensures requestIndex >= 0 && requestIndex !in old(reqs) ==>
        && r != null && fresh(r) && fresh(r.strBuf) && r.req == null
        && reqs == old(reqs)[requestIndex := r]
    {
      var key := Key(requestIndex);
      if key in reqs {
        return reqs[key];
      }
      if requestIndex >= 0 {
        r := new ExtractRequest.New();
        reqs := reqs[key := r];
      } else {
        r := null;
      }
    }

    /** Free (pkg/sdk/extract.go:58-62): releases every request's string
        buffer, visiting the map in some order. */
    method Free()
      requires Valid()
      modifies Buffers()
      ensures forall k :: k in reqs ==> reqs[k].strBuf.value == "" && !reqs[k].strBuf.held
    {
      var todo := reqs.Keys;
      while todo != {}
        invariant todo <= reqs.Keys
        invariant forall k :: k in reqs && k !in todo ==> reqs[k].strBuf.value == "" && !reqs[k].strBuf.held
        decreases todo
      {
        var k :| k in todo;
        reqs[k].strBuf.Free();
        todo := todo - {k};
      }
    }
  }

  /** The same index yields the same request on every call, and a second
      Get inserts nothing. */
  method GetTwice(pool: ExtractRequestPool, i: int) returns (r1: ExtractRequest?, r2: ExtractRequest?)
    requires pool.Valid() && IsInt64(i)
    modifies pool
    ensures r1 == r2 && (i >= 0 <==> r1 != null)
    ensures i >= 0 ==> pool.reqs == old(pool.reqs)[i := r1]
    ensures i < 0 ==> pool.reqs == old(pool.reqs)
  {
    r1 := pool.Get(i);
    r2 := pool.Get(i);
  }
}
