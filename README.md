# plugin-sdk-go: the Go/C plugin boundary, modelled in Dafny

This model covers the part of the Falco plugin SDK for Go that sits on the boundary between the C plugin framework and the Go plugin code:

- the **handle table** (`pkg/cgo`). It turns Go values into small integers that C code can hold. A handle is the lowest free slot in 1..255, and an invalid handle panics.
- the **byte cursors**: the bounded read/write/seek view over C memory in `bytes.go`, and the behaviour `pkg/ptr` tests require of its own `BytesReadWriter` and `StringBuffer`.
- the **event records** (`ss_plugin_event`). They are filled through the event writers of the root `sdk` package and of `pkg/sdk`, and read back through event readers.
- the **extraction request pool** of `pkg/sdk`.
- the **read middleware**. `read.c` puts a 64 KiB buffer per plugin state in front of the Go `io.Reader` behind `_plugin_read_go`, and the result codes both halves use are modelled too.
- **next_batch**, and the extraction wrappers. The synchronous `plugin_extract_fields_sync` and one round of the asynchronous extractor goroutine appear twice: once in `pkg/sdk/symbols/extract`, and once in the older `wrappers` package, whose extractors share one reader over the event data.
- the **ready-made source instances**. The pull instance and the push instance, their options, their batch loops and their shutdown.
- the **lifecycle symbols**: `plugin_init`/`plugin_destroy` and `plugin_open`/`plugin_close`.
- the **info symbols**: identity strings kept in C memory, the required API version check, and the JSON list of extract event sources.
- **extractor registration**.
- the `timeval_subtract` helper of the `wrappers` C code.

Go panics appear as `panicked` results or as `None`/`Exhausted` values, and a Go `nil` func is `None`. The answers of user code are parameters of the symbol that calls it: a plugin's `Init`, `Open`, `Next`, `NextBatch` and `Read`, the extractor functions, and the pull function and channel of the source instances. A Go value behind a handle is a `GoObject` whose capability set lists the interfaces it implements.

## Model

| member | source | states |
|---|---|---|
| SdkTypes.WrapInt64 | bytes.go:141-142 | the int64 wrap-around of Go arithmetic, as in the `b.size-b.offset` bound of Seek: the result is an int64, it is congruent to the input modulo 2^64, and an int64 input is unchanged |
| Handles.HandleTable.constructor | pkg/cgo/handle.go:66-68 | package initialisation leaves all 256 slots empty |
| Handles.HandleTable.NewHandle | pkg/cgo/handle.go:86-111 | the probing loop, with its retry rounds, has exactly the effect of `Register` on the slot vector: it fills the lowest free slot in 1..MaxHandle; when no slot is free it panics, with nothing changed, after 21 full passes over the 255 slots |
| Handles.HandleTable.Value | pkg/cgo/handle.go:117-122 | a handle above MaxHandle or on an empty slot panics; otherwise the result is the stored value |
| Handles.HandleTable.Delete | pkg/cgo/handle.go:130-135 | invalid handles panic and change nothing; a valid one empties exactly its own slot |
| Handles.HandleTable.ResetHandles | pkg/cgo/handle.go:137-141 | every slot is empty afterwards |
| Handles.FirstFree | pkg/cgo/handle.go:88-98 | the slot found is free, lies in [from, MaxHandle], and no free slot lies below it in that range |
| Handles.RegisterInRange | pkg/cgo/handle.go:86-111 | a handle that is issued is never 0 and never above MaxHandle, and its slot was empty |
| Handles.RegisterFillsLowest | pkg/cgo/handle.go:88-93 | NewHandle picks the lowest empty slot at 1 or above and leaves every other slot as it was |
| Handles.ValueOfNewHandle | pkg/cgo/handle.go:86-122 | Value of a new handle returns the registered value |
| Handles.RegisterTwiceDistinct | pkg/cgo/handle_test.go:29-73 | registering the same value twice gives two different handles, and both stay live |
| Handles.ZeroHandleIsInvalid | pkg/cgo/handle_test.go:75-113 | handle 0 panics for both Value and Delete, whatever the table holds |
| Handles.RevokeClears | pkg/cgo/handle.go:130-135 | after Delete(h), Value(h) and Delete(h) both panic and every other slot is unchanged |
| Handles.NeverExhaustedBelowCapacity | pkg/cgo/handle.go:80-83 | with fewer than MaxHandle live handles, NewHandle never panics |
| Handles.CapacityBound | pkg/cgo/handle_test.go:115-148 | starting from an empty table, MaxHandle registrations yield handles 1..255 in order, and the next one panics |
| Handles.DeleteAllIssued | pkg/cgo/handle_test.go:59-72 | deleting every issued handle brings the table back to all-empty |
| Handles.RegisterAllFromFilled | pkg/cgo/handle.go:86-111 | on a table filled densely from slot 1, registering values one after another issues the next handles in order and fills the next slots |
| Handles.FirstFreeIsLowest | pkg/cgo/handle.go:88-98 | a free slot h with no free slot between from and h is the one FirstFree finds |
| Handles.RevokeAllFrom | pkg/cgo/handle.go:130-135 | deleting, in order, the handles of a table filled densely from slot lo empties the table |
| Bytes.ReadCount | bytes.go:93-97 | Read copies at most len(p) bytes; it stops short only at size, and it never copies past size |
| Bytes.BytesReadWriter.Wrap | bytes.go:66-81 | the cursor starts at offset 0 over size bytes of the wrapped memory |
| Bytes.BytesReadWriter.Size | bytes.go:119-121 | reports the size field |
| Bytes.BytesReadWriter.Offset | bytes.go:127-129 | reports the offset field |
| Bytes.BytesReadWriter.SetSize | bytes.go:123-125 | stores any int64 with no bound check, and keeps the offset |
| Bytes.BytesReadWriter.Read | bytes.go:90-103 | copies `ReadCount` bytes from the cursor into p, in order, advances the offset by that count and leaves the rest of p alone; io.ErrShortBuffer exactly when fewer than len(p) bytes were copied; a copy that reaches past the wrapped memory panics |
| Bytes.BytesReadWriter.Write | bytes.go:105-117 | writes the prefix of p that fits before size at the cursor, advances by that much and changes no other byte; io.ErrShortWrite exactly when not all of p fits; a write that reaches past the wrapped memory panics |
| Bytes.BytesReadWriter.Seek | bytes.go:131-156 | the new offset and error are those of `SeekAsWritten` |
| Bytes.NewBytesReadWriter | bytes.go:66-81 | a negative size is an error; otherwise the cursor is fresh, at offset 0, over `size` bytes of the given memory |
| Bytes.SeekLandsOnArgument | bytes.go:131-156 | as written, a Seek that succeeds leaves the offset at the offset argument, whatever whence is; it succeeds exactly when the argument passes the bound check of its whence |
| Bytes.SeekRejectsLeaveOffset | bytes.go:132-134 | a negative offset or an unknown whence is an error and leaves the offset where it was |
| Bytes.SeekStartErrorStoresOffset | bytes.go:136-140 | as written, SeekStart with an offset past size returns an error but has already stored that offset, which breaks 0 <= Offset() <= Size() |
| Bytes.SeekCurrentIgnoresCursor | bytes.go:141-154 | as written, from offset 5, Seek(10, SeekCurrent) lands on 10 and not on 15 |
| Bytes.IntendedSeekKeepsBounds | bytes.go:131-156 | the corrected Seek lands on start + offset, cursor + offset or size - offset according to whence; on an error it leaves the offset alone; either way it keeps 0 <= offset <= size |
| Bytes.RewindAgrees | bytes.go:136-140 | on the rewind Seek(0, SeekStart) that event records use, the written and the corrected Seek agree and land on 0 |
| Bytes.GrownSizeReadPanics | bytes.go:90-125 | with the cursor at the end of the wrapped memory, a one-byte Read returns io.ErrShortBuffer; after SetSize raises the size by one, the same Read panics past the slice |
| PtrBuffer.BytesReadWriter.Wrap | pkg/ptr/bytes_test.go:31-39 | a cursor over the wrapped bytes, at offset 0, with the given length |
| PtrBuffer.BytesReadWriter.SetLen | pkg/ptr/bytes_test.go:222-252 | the length is clamped to 0..capacity and the offset is kept |
| PtrBuffer.BytesReadWriter.Read | pkg/ptr/bytes_test.go:170-192 | copies min(len(p), length - offset) bytes from the cursor, in order, and advances; at or past the length it returns io.EOF with nothing copied; the rest of p is untouched |
| PtrBuffer.BytesReadWriter.Write | pkg/ptr/bytes_test.go:274-282 | writes the prefix of p that fits before the length and advances by it, changing no other byte; io.ErrShortWrite exactly when the write was short (assumed beyond the tests, see Left out) |
| PtrBuffer.BytesReadWriter.Seek | pkg/ptr/bytes_test.go:111-168 | seeks relative to whence, as io.Seeker defines it, within 0..length; an error leaves the offset alone (SeekEnd and negative offsets assumed beyond the tests, see Left out) |
| PtrBuffer.NewBytesReadWriter | pkg/ptr/bytes_test.go:41-68 | a nil buffer, a negative capacity, or a length outside 0..capacity is an error; otherwise a fresh cursor at offset 0 |
| StringBuffers.StringBuffer.Empty | pkg/ptr/string_test.go:60-69 | a new buffer is empty and holds no C memory |
| StringBuffers.StringBuffer.Write | pkg/ptr/string_test.go:71-84 | after Write, the buffer holds exactly the last string written and owns C memory |
| StringBuffers.StringBuffer.CharPtr | pkg/ptr/string_test.go:64-77 | the C pointer is nil exactly while nothing is held, and otherwise points at the held string |
| StringBuffers.StringBuffer.Free | pkg/ptr/string_test.go:86 | Free empties the buffer and releases its memory |
| CEvent.SsPluginEvent.Init | sdk.go:308-325 | a new record has datalen 0 and timestamp MaxUint64 over the given payload buffer; evtnum is not written, so it is some unspecified 64-bit value |
| RootEvents.PluginEvent.Writer | sdk.go:333-338 | the whole payload becomes writable from offset 0, datalen is reset to 0, and ts and evtnum are kept |
| RootEvents.PluginEvent.Write | sdk.go:340-347 | the bytes land at the cursor; datalen grows, as a uint32, by the count of a write that succeeded; a short write stores its bytes, reports io.ErrShortWrite and leaves datalen alone |
| RootEvents.PluginEvent.Reader | sdk.go:327-331 | the cursor is rewound and covers exactly datalen bytes |
| RootEvents.PluginEvent.SetTimestamp | sdk.go:349-351 | writes ts and nothing else |
| RootEvents.Get | sdk.go:289-291 | an index inside the list gives that record; any other index is the Go slice panic |
| RootEvents.Len | sdk.go:293-295 | the length of the list is exactly the bound below which Get succeeds |
| RootEvents.NewPluginEvent | sdk.go:308-325 | a fresh record with datalen 0, timestamp MaxUint64, and a cursor over dataSize bytes at offset 0 |
| RootEvents.NewPluginEvents | sdk.go:268-287 | size must lie in 1..MaxNextBatchEvents and dataSize must not be negative, each with its own error; otherwise there are `size` separate fresh records of `dataSize` bytes, empty and stamped MaxUint64 |
| RootEvents.WriteThenRead | sdk.go:145-164 | after Writer(), a sequence of writes that together fit the payload all succeed, datalen is their total, and reading the record back gives exactly their bytes in order |
| PkgEvent.EventWriter.Writer | pkg/sdk/event.go:227-232 | the payload is writable from 0 and datalen is reset; the timestamp is kept |
| PkgEvent.EventWriter.Write | pkg/sdk/event.go:234-241 | writes what fits before the payload length at the cursor; datalen grows by the count, as a uint32, only when the write succeeded; io.ErrShortWrite exactly when the write was short |
| PkgEvent.EventWriter.SetTimestamp | pkg/sdk/event.go:243-245 | writes ts only |
| PkgEvent.EventWriters.Free | pkg/sdk/event.go:192-197 | the records and the array are released |
| PkgEvent.EventWriters.Len | pkg/sdk/event.go:188-190 | the number of records in the batch |
| PkgEvent.EventWriters.Get | pkg/sdk/event.go:184-186 | the record at an index below Len, and a panic otherwise |
| PkgEvent.NewEventWriter | pkg/sdk/event.go:209-225 | a fresh record with its own payload of dataSize bytes, datalen 0 and timestamp MaxUint64 |
| PkgEvent.NewEventWriters | pkg/sdk/event.go:161-182 | size must lie in 1..MaxNextBatchEvents and dataSize in 0..MaxEvtSize, each with its own error; otherwise a fresh batch of `size` separate records of `dataSize` bytes |
| PkgEvent.EventNum | pkg/sdk/event.go:268-270 | the event number stored in the C record |
| PkgEvent.Timestamp | pkg/sdk/event.go:264-266 | the timestamp stored in the C record |
| PkgEvent.Reader | pkg/sdk/event.go:258-262 | a fresh cursor at offset 0 over exactly the datalen bytes of the record's payload |
| PkgEvent.WriteBytesThenRead | pkg/sdk/event_test.go:105-143 | k one-byte writes of the same byte all succeed, datalen becomes k, and reading the record back gives k copies of that byte |
| ExtractPool.Key | pkg/sdk/extract.go:48 | uint(i): a non-negative index is its own key, and a negative one lands in the upper half of the uint64 range |
| ExtractPool.ExtractRequest.SetPtr | pkg/sdk/extract.go:76-78 | points the request at another field and changes nothing else |
| ExtractPool.ExtractRequest.SetStrValue | pkg/sdk/extract.go:92-96 | the string goes into the request's own buffer, the field becomes present, and its res_str is that buffer's C string |
| ExtractPool.ExtractRequest.SetU64Value | pkg/sdk/extract.go:98-101 | the field becomes present with that value |
| ExtractPool.ExtractRequestPool.New | pkg/sdk/extract.go:64-69 | the pool starts empty |
| ExtractPool.ExtractRequestPool.Get | pkg/sdk/extract.go:47-56 | an index already in the pool gives its request and changes nothing; a new non-negative index gets a fresh request, added under that index; a negative index gives nil and adds nothing |
| ExtractPool.ExtractRequestPool.Free | pkg/sdk/extract.go:58-62 | every request's string buffer is emptied and released |
| ExtractPool.GetTwice | pkg/sdk/extract.go:47-56 | two Gets for the same index return the same request, non-nil exactly for a non-negative index, and add at most that one entry |
| GoObjects.GoObject.New | pkg/sdk/symbols/initialize/initialize.go:29-44 | a fresh Go value with the given interfaces, no last error, no batch, no pool, fresh string buffers, and no Destroy or Close run yet |
| GoObjects.SetLastError | pkg/sdk/symbols/open/open.go:61 | the error is stored exactly when the value is non-nil and implements LastError; otherwise the type assertion panics and nothing changes |
| ReadGo.ReadCode | pkg/sdk/symbols/read/read.go:47-58 | SUCCESS exactly for no error, EOF exactly for io.EOF or sdk.ErrEOF, TIMEOUT exactly for sdk.ErrTimeout, FAILURE for every other error |
| ReadGo.PluginReadGo | pkg/sdk/symbols/read/read.go:44-59 | an invalid handle or an instance that is not an sdk.Reader panics; otherwise nread is the count as a uint32, the code is `ReadCode` of the error, and a FAILURE records the error on the plugin state, panicking when that state has no LastError |
| ReadC.Initial | pkg/sdk/symbols/read/read.c:46 | the zero-initialised state: nothing buffered, last code SUCCESS, reader untouched |
| ReadC.Step | pkg/sdk/symbols/read/read.c:75-98 | one pass hands over at most n bytes from the front of the buffer, refilling first only when the buffer is empty and the last code was SUCCESS |
| ReadC.Fill | pkg/sdk/symbols/read/read.c:72-99 | the loop hands over at most n bytes, and the bytes handed over followed by those still buffered are the bytes buffered before followed by those fetched |
| ReadC.FillInOrder | pkg/sdk/symbols/read/read.c:72-99 | the bytes come out in the order the Go reader delivered them: pending bytes, then what was fetched, less what stays buffered |
| ReadC.FillUnroll | pkg/sdk/symbols/read/read.c:72-99 | one pass followed by the rest of the loop is the loop |
| ReadC.FillShortOnlyOnError | pkg/sdk/symbols/read/read.c:72-99 | fewer than n bytes come out only when the buffer ran dry after a refill reporting something other than SUCCESS |
| ReadC.FillSticky | pkg/sdk/symbols/read/read.c:80-90 | once a refill has failed, the loop never calls the Go reader again |
| ReadC.FillBounded | pkg/sdk/symbols/read/read.c:86-98 | what stays buffered never exceeds the 64 KiB buffer |
| ReadC.PluginReadSpec | pkg/sdk/symbols/read/read.c:59-111 | a remembered TIMEOUT is forgotten on entry; fewer than n bytes come out only when nothing stays buffered and the code is not SUCCESS; an EOF or TIMEOUT is turned into SUCCESS while bytes stay buffered; the returned code is the new last_rc; a remembered EOF with nothing buffered returns at once without a Go call |
| ReadC.TimeoutForgotten | pkg/sdk/symbols/read/read.c:69 | a call after a TIMEOUT behaves like a call from a clean state |
| ReadC.ZeroByteSuccessSpins | pkg/sdk/symbols/read/read.c:72-99 | a refill that returns no bytes and SUCCESS leaves the loop exactly where it was, so the C loop spins |
| ReadC.HandlesOutrunInstances | pkg/sdk/symbols/read/read.c:31-64 | g_states has 32 slots, indices 0..31, indexed by the plugin-state handle, but the handle table issues handles up to 255: the 32nd handle issued from an empty table is 32, already past the end (instances draw from the same table, so it can come sooner) |
| ReadC.InstanceBuffer.Refill | pkg/sdk/symbols/read/read.c:86-88 | the buffer restarts at buf[0] and holds what the Go reader returned, together with its code |
| ReadC.InstanceBuffer.Flush | pkg/sdk/symbols/read/read.c:92-98 | k buffered bytes are copied to out[at..at+k) and leave the front of the pending bytes; nothing else in out changes |
| ReadC.InstanceBuffer.Drain | pkg/sdk/symbols/read/read.c:72-99 | the loop over the C buffer writes into out exactly the bytes `Fill` gives, and leaves exactly the buffered bytes, last code and reader state `Fill` gives |
| ReadC.InstanceBuffer.Advance | pkg/sdk/symbols/read/read.c:75-98 | one pass keeps the loop's account against `Fill` |
| ReadC.InstanceBuffer.Pass | pkg/sdk/symbols/read/read.c:75-98 | one pass writes what `Step` gives and nothing beyond it |
| ReadC.InstanceBuffer.Read | pkg/sdk/symbols/read/read.c:66-110 | the body of plugin_read on one instance: out, nread, the returned code and the new buffered state are exactly what `PluginReadSpec` gives; out past nread is untouched |
| ReadC.InstanceBuffer.ForgetTimeout | pkg/sdk/symbols/read/read.c:69 | a remembered TIMEOUT becomes SUCCESS; any other code stays |
| ReadC.InstanceBuffer.ReportBuffered | pkg/sdk/symbols/read/read.c:101-110 | while bytes stay buffered, an EOF or TIMEOUT is reported and remembered as SUCCESS; the returned code is the remembered one |
| ReadC.InstanceBuffer.Reset | pkg/sdk/symbols/read/read.c:34-46 | the slot is back in its zero state: nothing buffered and last code SUCCESS, the `Initial` state (a reset read.c does not perform) |
| ReadC.AccountedStep | pkg/sdk/symbols/read/read.c:75-98 | one more pass keeps the loop's account: the whole loop is what is out, then the rest of the loop from the new state |
| ReadC.StepStalls | pkg/sdk/symbols/read/read.c:75-98 | a pass that hands over nothing found the buffer empty and left a code other than SUCCESS, so the loop stops |
| ReadC.PluginRead | pkg/sdk/symbols/read/read.c:59-111 | plugin_read for plugin-state slot s: out, nread, the returned code and the slot's new state are exactly what `PluginReadSpec` gives; out past nread is untouched |
| ReadScripts.SampleRead | pkg/sdk/symbols/read/read_test.go:35-55 | the test reader returns a set error with no bytes; otherwise it hands over the front of its data, at most len bytes, with ErrEOF together with the last of them |
| ReadScripts.SampleProgressing | pkg/sdk/symbols/read/read_test.go:35-55 | the test reader never makes the C loop spin |
| ReadScripts.RegularScript | pkg/sdk/symbols/read/read_test.go:92-103 | 1000 bytes read 600 at a time give SUCCESS with 600 bytes, EOF with 400, then EOF with none, on the Go path and the C path alike |
| ReadScripts.UnsufficientScript | pkg/sdk/symbols/read/read_test.go:105-114 | 20 bytes asked of a 10-byte stream give EOF with the 10 bytes, on the Go path and on the C path from a zeroed slot |
| ReadScripts.TimeoutScript | pkg/sdk/symbols/read/read_test.go:143-156 | (C path from a zeroed slot) while the reader times out, both paths report TIMEOUT with no bytes and the C path asks the reader again on the next call; once the error is cleared, the 10 bytes come with EOF |
| ReadScripts.StressScriptGo | pkg/sdk/symbols/read/read_test.go:116-129 | Go path: 128 KiB read as 80, 60 and 40 KiB give SUCCESS with the first 80 KiB, EOF with the other 48 KiB, then EOF with none |
| ReadScripts.StressScriptC | pkg/sdk/symbols/read/read_test.go:116-129 | C path from a zeroed slot: the same calls give the same bytes and codes, although the buffer refills in 64 KiB steps |
| ReadScripts.StressFirstCallC | pkg/sdk/symbols/read/read_test.go:116-129 | from a zeroed slot, the first C call makes two 64 KiB refills, hands over 80 KiB, and keeps the other 48 KiB buffered with its EOF turned into SUCCESS |
| ReadScripts.StressSecondCallC | pkg/sdk/symbols/read/read_test.go:116-129 | continuing from the first call's state, the second C call delivers the buffered 48 KiB and meets EOF; the third returns EOF with nothing |
| ReadScripts.HandleOneEachRun | pkg/cgo/handle.go:86-135 | on a table with no live handle, NewHandle issues handle 1 and deleting it leaves the table empty again, so every run of the test harness gets plugin-state handle 1 |
| ReadScripts.SlotCall | pkg/sdk/symbols/read/read.c:59-111 | one plugin_read call with the test reader on one g_states slot returns the code and count of `CCall` and leaves the slot in `CCall`'s state |
| ReadScripts.RegularCounts | pkg/sdk/symbols/read/read_test.go:92-103 | the C calls of TestReadRegular hand over 600 and 400 bytes, and the third leaves nothing buffered with EOF remembered |
| ReadScripts.RegularOnSlot | pkg/sdk/symbols/read/read_test.go:92-103 | TestReadRegular's C run on a zeroed slot returns SUCCESS 600, EOF 400, EOF 0, and leaves the slot empty with EOF remembered |
| ReadScripts.ReusedSlotAsWritten | pkg/sdk/symbols/read/read.c:46-83 | TestReadUnsufficient's C run on the slot TestReadRegular's run left returns EOF with 0 bytes, not the 10 the test expects |
| ReadScripts.ReusedSlotReset | pkg/sdk/symbols/read/read.c:46-83 | with the slot reset for the new plugin state, the same run returns EOF with the 10 bytes |
| NextBatch.BatchCode | pkg/sdk/symbols/nextbatch/nextbatch.go:61-73 | SUCCESS exactly for no error, EOF exactly for sdk.ErrEOF, TIMEOUT exactly for sdk.ErrTimeout, FAILURE otherwise; io.EOF counts as a failure |
| NextBatch.BatchCodeVersusReadCode | pkg/sdk/symbols/nextbatch/nextbatch.go:61-73 | next_batch and read map errors to the same codes except for io.EOF |
| NextBatch.Dispatch | pkg/sdk/symbols/nextbatch/nextbatch.go:49-57 | with NextBatch implemented, its count and error pass through; otherwise Next gives one event on success and none on error |
| NextBatch.PluginNextBatch | pkg/sdk/symbols/nextbatch/nextbatch.go:42-74 | an invalid handle, a nil plugin state, an instance without Events (or with neither NextBatch nor Next) or a nil batch panics; otherwise the code is `BatchCode` of the dispatched error, nevts and retEvts are the batch's count and records, and a FAILURE clears both and records the error on the plugin state, panicking when it has no LastError |
| ExtractSymbols.FieldAnswer | pkg/sdk/symbols/extract/extract.go:45-79 | a string field gets its presence, and its string when present; a uint64 field gets its presence, and its value when present; a missing extractor or another type leaves the slots alone |
| ExtractSymbols.FieldAnswerIdempotent | pkg/sdk/symbols/extract/extract.go:45-79 | answering the same field of the same event twice gives the same slots as answering it once |
| ExtractSymbols.AsyncCode | pkg/sdk/symbols/extract/extract.go:167-203 | SUCCESS exactly when the field type has a registered extractor, NOT_SUPPORTED otherwise |
| ExtractSymbols.UnsupportedLeavesField | pkg/sdk/symbols/extract/extract.go:167-203 | a request answered NOT_SUPPORTED leaves the field's slots untouched |
| ExtractSymbols.WrapExtractFuncs | pkg/sdk/symbols/extract/extract.go:45-79 | each of the first numFields fields ends up as `FieldAnswer` of its request and the event; the fields past numFields are untouched; the code is SUCCESS |
| ExtractSymbols.ExtractorRegistry.RegisterExtractors | pkg/sdk/symbols/extract/extract.go:132-135 | stores both functions, nil ones included |
| ExtractSymbols.ExtractorRegistry.PluginExtractFieldsSync | pkg/sdk/symbols/extract/extract.go:215-223 | FAILURE with no field touched unless both extractors are set; otherwise SUCCESS with every field answered as in WrapExtractFuncs |
| ExtractSymbols.ServeAsyncRequest | pkg/sdk/symbols/extract/extract.go:167-203 | one round of the goroutine: the code is `AsyncCode`, and the field is answered as `FieldAnswer` answers it |
| ExtractSymbols.NextBatch | pkg/sdk/symbols/extract/extract.go:251-274 | the batch is the longest run of SUCCESS replies of Next, capped at MaxNextBatchEvents; the first other code is the result code, or SUCCESS when the batch is full |
| Wrappers.Dispatch | wrappers/wrappers.go:46-84 | one field answered through the shared reader: as in pkg/sdk/symbols/extract for string and uint64 fields, except that the reader's cursor moves on; other types change nothing |
| Wrappers.Sweep | wrappers/wrappers.go:46-84 | one answer per field, computed in order over one cursor |
| Wrappers.SweepNoRewind | wrappers/wrappers.go:60-81 | field i is answered from the cursor the fields before it left; the reader is never rewound |
| Wrappers.CursorFreeSweepAgrees | wrappers/wrappers.go:46-84 | with extractors that do not move the cursor, the older wrappers answer every field exactly as pkg/sdk/symbols/extract does |
| Wrappers.SharedCursorSeparatesEqualRequests | wrappers/wrappers.go:60-81 | two identical requests in one call get different answers when the extractor reads through the shared cursor |
| Wrappers.SweepExtend | wrappers/wrappers.go:60-81 | the sweep of the first i+1 fields is the sweep of the first i fields followed by field i dispatched from the cursor they left |
| Wrappers.AnswerField | wrappers/wrappers.go:62-80 | the loop body writes exactly `Dispatch`'s answer into the field and returns the new cursor |
| Wrappers.SweepFields | wrappers/wrappers.go:60-81 | the loop writes `Sweep`'s answers into the first numFields fields and leaves the rest alone |
| Wrappers.WrapExtractFuncs | wrappers/wrappers.go:46-84 | FAILURE with no field touched exactly when the event's data cannot be wrapped; otherwise SUCCESS with the fields as `Sweep` answers them from cursor 0 |
| Wrappers.ReaderRegistry.RegisterExtractors | wrappers/wrappers.go:137-140 | stores both functions, nil ones included |
| Wrappers.ReaderRegistry.PluginExtractFieldsSync | wrappers/wrappers.go:224-232 | SUCCESS exactly when both extractors are set and the data wraps; FAILURE touches no field |
| Wrappers.ServeAsyncRequest | wrappers/wrappers.go:172-212 | one goroutine round over a fresh reader: FAILURE with the field untouched when the data cannot be wrapped, otherwise the code of `AsyncCode` and the field answer of `Dispatch` from cursor 0 |
| Timeval.TimevalSubtract | wrappers/wrappers.c:47-69 | the result is x - y in microseconds; y's fields are adjusted by the carry but keep their value in microseconds; the result's usec lies in 0..10^6, and below 10^6 for normalised inputs; the return value is 1 exactly when the result's seconds are negative |
| Timeval.UnnormalisedSecondSurvives | wrappers/wrappers.c:56-60 | the second carry tests `>` and not `>=`, so a difference of exactly one second can come out as 0 s and 1000000 µs |
| SourceInstance.LastOptionOfKindWins | pkg/sdk/plugins/source/instance.go:80-101 | once the options are applied, applying any one of them again changes nothing, so the last option of each kind wins |
| SourceInstance.AbsentOptionKeepsDefault | pkg/sdk/plugins/source/instance.go:170-180 | a kind of option never given keeps its default: the background context, the 30 ms timeout, the no-op close callback |
| SourceInstance.CloseEffects | pkg/sdk/plugins/source/instance.go:186-192 | Close cancels the context, then runs the user's close callback if one was given, then stops the ticker; a nil close callback panics right after the cancel, so the ticker is not stopped |
| SourceInstance.Builtin.Close | pkg/sdk/plugins/source/instance.go:138-144 | the context is cancelled and the effects of `CloseEffects` are appended in order; it panics exactly when the close callback is nil |
| SourceInstance.OpenBuiltin | pkg/sdk/plugins/source/instance.go:166-192 | a fresh instance configured by the options applied to the defaults, with nothing run yet |
| SourceInstance.PullInstance.NextBatch | pkg/sdk/plugins/source/instance.go:103-136 | a latched EOF answers (0, ErrEOF) at once; otherwise records are pulled until the batch is full (no error), the ticker fires (ErrTimeout), the context is done (ErrEOF, which latches) or the pull fails (its error, which does not latch) |
| SourceInstance.PullInstance.Close | pkg/sdk/plugins/source/instance.go:138-144 | runs the shutdown chain once, as in `CloseEffects`, and panics exactly when the close callback is nil |
| SourceInstance.OpenPullInstance | pkg/sdk/plugins/source/instance.go:166-196 | panics in time.NewTicker exactly when the configured timeout is <= 0, else in context.WithCancel exactly when the context is nil; otherwise it returns no error and an instance with no EOF latched, the configured options and a positive timeout |
| SourceInstance.DefaultsNeverPanic | pkg/sdk/plugins/source/instance.go:170-187 | options that set neither a timeout nor a context never make Open panic |
| SourceInstance.ZeroTimeoutPanics | pkg/sdk/plugins/source/instance.go:178-183 | a final `WithInstanceTimeout(0)` makes Open panic at the ticker, whatever the earlier options |
| SourceInstance.StopError | pkg/sdk/plugins/source/instance.go:212-241 | a round that does not add its event always ends the batch with an error: ErrEOF for a closed channel or a done context, the event's own error, io.ErrShortWrite when the data does not fit the record, ErrTimeout for the ticker |
| SourceInstance.Receive | pkg/sdk/plugins/source/instance.go:212-234 | a received event is accepted exactly when `Accepts` allows it; then the record holds its data, its length and its timestamp (the record's previous one for the zero time); otherwise the round's `StopError` is reported and the timestamp kept |
| SourceInstance.PushOne | pkg/sdk/plugins/source/instance.go:212-234 | one round keeps the batch account: an accepted round extends it by record n, a rejected one keeps it and reports its error |
| SourceInstance.PushRounds | pkg/sdk/plugins/source/instance.go:207-244 | the loop fills the records in order as `Batched` says; no error exactly when the batch is full; otherwise the error is `StopError` of the round that stopped it, and EOF latches exactly when that round was not the ticker |
| SourceInstance.PushInstance.NextBatch | pkg/sdk/plugins/source/instance.go:198-245 | a latched EOF answers (0, ErrEOF) and touches no record; otherwise as `PushRounds`, latching EOF when it says so |
| SourceInstance.PushInstance.Close | pkg/sdk/plugins/source/instance.go:247-253 | runs the shutdown chain once, as in `CloseEffects`, and panics exactly when the close callback is nil |
| SourceInstance.OpenPushInstance | pkg/sdk/plugins/source/instance.go:269-298 | panics in time.NewTicker exactly when the configured timeout is <= 0, else in context.WithCancel exactly when the context is nil; otherwise it returns no error and an instance with no EOF latched, the configured options and a positive timeout |
| Initialize.InitError | pkg/sdk/symbols/initialize/initialize.go:48-50 | the default init callback never fails; any other callback's error is what the user answered |
| Initialize.InitSymbols.SetOnInit | pkg/sdk/symbols/initialize/initialize.go:52-57 | a nil function panics and changes nothing; otherwise it becomes the callback |
| Initialize.InitSymbols.PluginInit | pkg/sdk/symbols/initialize/initialize.go:59-79 | on an error, a fresh baseInit carrying that error gets the handle and rc is FAILURE; otherwise the returned state, nil included, gets the handle and rc is SUCCESS, and a state that has the ExtractRequests interface but no pool receives a fresh empty pool |
| Initialize.Teardown | pkg/sdk/symbols/initialize/initialize.go:85-99 | Destroy runs when implemented; then the pool and the three string buffers are freed when their interfaces are implemented; a nil pool panics before the buffers are freed |
| Initialize.FreeBuffers | pkg/sdk/symbols/initialize/initialize.go:91-99 | each of the three string buffers is freed exactly when its interface is implemented |
| Initialize.PluginDestroy | pkg/sdk/symbols/initialize/initialize.go:81-103 | handle 0 is ignored, and a handle with no value panics; otherwise the state is torn down as in Teardown and its handle deleted, unless the teardown panicked |
| Open.OpenError | pkg/sdk/symbols/open/open.go:47-58 | the callback's error wins; otherwise the batch allocation's error, which arises only for a batch size below one |
| Open.OpenSymbols.SetOnOpen | pkg/sdk/symbols/open/open.go:34-39 | a nil function panics and changes nothing; otherwise it becomes the callback |
| Open.OpenSymbols.PluginOpen | pkg/sdk/symbols/open/open.go:41-67 | with no callback it panics; on an error the plugin state records it and rc is FAILURE with no handle issued; otherwise rc is SUCCESS and a new handle holds the instance, which first receives a batch of maxNextBatchEvents records of maxEvtSize bytes if it needs one |
| Open.AllocateBatch | pkg/sdk/symbols/open/open.go:47-58 | an instance without a batch gets a fresh one of maxNextBatchEvents records of maxEvtSize bytes; the error reported is the one `OpenError` gives; an instance that needs no batch keeps its own |
| Open.Answer | pkg/sdk/symbols/open/open.go:60-66 | an error is recorded on the plugin state (a panic when it has no LastError) with rc FAILURE and no handle; otherwise rc is SUCCESS and the instance gets the next handle |
| Open.PluginClose | pkg/sdk/symbols/open/open.go:69-81 | handle 0 is ignored; otherwise the user's Close runs when implemented, the batch is freed when Events is implemented (a nil batch panics), and the handle is deleted |
| Info.Split | pkg/sdk/symbols/info/info.go:111-117 | strings.Split on "." always has at least one part |
| Info.SplitJoin | pkg/sdk/symbols/info/info.go:111-117 | Split and Join are inverse, there is one part more than there are dots, and no part holds a dot |
| Info.LessIrreflexive | pkg/sdk/symbols/info/info.go:131-134 | Go's string order is irreflexive |
| Info.TenOrdersBeforeNine | pkg/sdk/symbols/info/info.go:131-134 | version parts are compared as strings: "10" sorts before "9" |
| Info.SplitVersion | pkg/sdk/symbols/info/info.go:111-117 | a version splits into three parts exactly when it holds two dots, and the parts join back to the version |
| Info.CheckRequiredVersion | pkg/sdk/symbols/info/info.go:119-139 | an empty version is accepted; a version (the plugin's or the SDK's) that does not split into three parts panics; otherwise the majors must be equal, the minor must not sort above the SDK's, and with equal minors the patch must not either |
| Info.SdkVersionAccepted | pkg/sdk/symbols/info/info.go:119-139 | requiring exactly the SDK's own version is accepted |
| Info.StringOrderAcceptsHigherMinor | pkg/sdk/symbols/info/info.go:131-134 | "3.10.0" passes against an SDK at "3.9.0", because the minors compare as strings |
| Info.JsonArray | pkg/sdk/symbols/info/info.go:158-166 | json.Marshal of a non-empty []string: brackets around quoted elements |
| Info.SourcesText | pkg/sdk/symbols/info/info.go:158-166 | the stored text is "[]" exactly when the list is empty |
| Info.Registry.New | pkg/sdk/symbols/info/info.go:46-56 | the package variables start at zero: type 0, id 0, every string empty and holding no C memory |
| Info.Registry.SetType | pkg/sdk/info/info.go:36-43 | plugin_get_type returns the type that was set |
| Info.Registry.SetId | pkg/sdk/symbols/info/info.go:58-65 | plugin_get_id returns the id that was set |
| Info.Registry.SetName | pkg/sdk/symbols/info/info.go:67-74 | plugin_get_name returns the name that was set |
| Info.Registry.SetDescription | pkg/sdk/symbols/info/info.go:76-83 | plugin_get_description returns the description that was set |
| Info.Registry.SetContact | pkg/sdk/symbols/info/info.go:85-92 | plugin_get_contact returns the contact that was set |
| Info.Registry.SetVersion | pkg/sdk/symbols/info/info.go:94-101 | plugin_get_version returns the version that was set |
| Info.Registry.SetEventSource | pkg/sdk/symbols/info/info.go:141-148 | plugin_get_event_source returns the source that was set |
| Info.Registry.PluginGetRequiredApiVersion | pkg/sdk/symbols/info/info.go:103-109 | the SDK's own version while none has been set, the set version otherwise |
| Info.Registry.SetRequiredAPIVersion | pkg/sdk/symbols/info/info.go:119-139 | panics exactly as `CheckRequiredVersion` says, before storing anything; otherwise stores the version |
| Info.Registry.SetExtractEventSources | pkg/sdk/symbols/info/info.go:158-166 | stores "[]" for an empty list, and the JSON array of the sources otherwise |
| Info.Registry.PluginGetExtractEventSources | pkg/sdk/symbols/info/info.go:150-156 | stores and returns "[]" when nothing was set, and the stored text otherwise |
| Info.ExtractSourcesRoundTrip | pkg/sdk/symbols/info/info.go:150-166 | the getter answers "[]" before any set; after a set it answers the stored text, which is "[]" exactly when the list was empty |
| Extractor.TypeAfterRegister | pkg/sdk/plugins/extractor/extractor.go:41-50 | an unset type becomes extractor; extractor and source types are kept; any other type is rejected |
| Extractor.RegisterOutcome | pkg/sdk/plugins/extractor/extractor.go:36-69 | the panic comes from the first check that fails: already registered, then an unsupported type, then the required API version |
| Extractor.SetIdentity | pkg/sdk/plugins/extractor/extractor.go:52-57 | the id, name, description, event source, contact and version of Info become what the info symbols answer |
| Extractor.Registration.Register | pkg/sdk/plugins/extractor/extractor.go:36-69 | panics as `RegisterOutcome` says; the first two panics change nothing; otherwise the type and the identity strings are set; a version panic stops before the event sources and the init callback; a full Register stores the event sources, installs the callback answering the plugin itself, and sets the flag |
| Extractor.RegisterTwice | pkg/sdk/plugins/extractor/extractor.go:37-39 | a second Register after a successful one panics as already registered; after a failed one it fails the same way |
| Extractor.SourceKeepsPriority | pkg/sdk/plugins/extractor/extractor.go:46-47 | a source plugin that registered first keeps its type, and Register panics only on the version check |
| Extractor.RegisterThenInit | pkg/sdk/plugins/extractor/extractor.go:63-66 | after Register, plugin_init hands out handle 1 for the plugin itself when its Init succeeds, and a fresh state carrying Init's error when it fails |
| Extractor.RegisterFresh | pkg/sdk/plugins/extractor/extractor.go:36-69 | a Register on fresh package state that passes the version check does not panic and installs the plugin itself as the init callback |

## Left out

- The C framework itself, and the asynchronous extraction engine that `extract.c` and `wrappers.c` implement (the spin-wait loop of `async_extractor_wait`, the lock-free handshake, thread start and stop). Concurrency is outside Dafny's sequential model. One request served by the goroutine is modelled (`ServeAsyncRequest`), not the threads.
- The atomics of `pkg/cgo/handle.go`. NewHandle is modelled as run by one goroutine at a time, which is what its comments require.
- `pkg/loader`, the metrics symbols, `evtstr`, `lasterr`, `progress`, `listopen`, `initschema`, the `state` packages and the `capture`/`source` plugin registration. They sit outside the boundary this model covers.
- `pkg/sdk/symbols/fields/fields.go` (`fields.SetFields`, called by extractor registration) is not part of this model, so Register does not record the plugin's field list.
- The package constants of `pkg/sdk` (`MaxEvtSize`, `MaxNextBatchEvents`) live in `pkg/sdk/sdk.go`, which is not part of this model. The `pkg/sdk` event writers and `plugin_open` therefore take them as a `Limits` parameter.
- `PLUGIN_API_VERSION_STR` comes from a C header that is not part of this model. It is the `sdkRequiredVersion` parameter of the info registry.
- `pkg/sdk/symbols/info/info.go` declares the plugin type variable but none of its accessors, while extractor registration calls `info.Type()` and `info.SetType`. The accessors are modelled after `pkg/sdk/info/info.go:36-43`.
- `pkg/ptr`'s `BytesReadWriter` and `StringBuffer` sources are not part of this model. Their contracts are the behaviour `pkg/ptr/bytes_test.go` and `pkg/ptr/string_test.go` require wherever those tests pin it down. Where a contract says more than the tests check, one of the lines below names the assumption.
- PtrBuffer.BytesReadWriter.Write: that io.ErrShortWrite comes exactly when the write is short, and that the fitting prefix is stored, is assumed. `bytes_test.go:274-282` checks only a write that fits. `SourceInstance.StopError`'s io.ErrShortWrite rests on this assumption.
- PtrBuffer.BytesReadWriter.Read: the count of a partial read, min(len(p), length - offset), is assumed. The tests check full reads and the read at the end.
- PtrBuffer.BytesReadWriter.Seek: SeekEnd landing on length - offset is assumed, as the root `bytes.go:146-150` computes it. So is the rejection of negative offsets for every whence. The tests pin SeekEnd only at offsets 0 and 129, and negative offsets only with SeekStart.
- PtrBuffer.BytesReadWriter.SetLen: the clamp to 0..capacity generalises the three lengths `bytes_test.go:235-251` sets (above the capacity, negative, within it).
- ExtractPool.ExtractRequestPool.Get: for a negative index Go returns a non-nil interface wrapping a nil pointer, which compares unequal to nil; the model returns null and does not tell the two apart. No path in the SDK passes a negative index.
- StringBuffers.StringBuffer.Free: that Free leaves the buffer empty and holding no C memory is assumed. `string_test.go:86` only calls it. `Initialize.FreeBuffers`, `Initialize.Teardown` and `ExtractPool.ExtractRequestPool.Free` rest on this assumption.
- StringBuffers.StringBuffer.Write: that the buffer then holds exactly the string written is assumed. Through the C pointer, a Go string with an embedded NUL reads back cut at the first NUL, which the model does not represent. `ExtractPool.ExtractRequest.SetStrValue` and the `Info.Registry` getters inherit this.
- User callbacks are parameters. Their effects are not modelled: what a pull function writes into a record, and what `Destroy`/`Close` do beyond being counted.
- Timestamps and time: `time.Now`, tickers and contexts are inputs. The push and pull loops take the outcome of each `select` round as an input sequence, so the nondeterministic choice of `select` is that sequence. The ticker's `Reset` (instance.go:110, 205) panics on a non-positive interval; that branch is not modelled, because both Open methods panic first on such a timeout.
- C memory is modelled as separate Dafny arrays. Aliasing between C pointers, `malloc` failure and use after `free` are not modelled. A freed buffer is marked, not reclaimed. The root package's `pluginEvents.Free` (sdk.go:297-302) frees each payload and then the record array. It only releases C memory, so it is not modelled; `PkgEvent.EventWriters.Free` marks the same release for `pkg/sdk`.
- `Info.JsonArray` covers the escaping `encoding/json` applies to the characters a Go string can hold, as Go 1.22 and later write it (`\b` and `\f` for U+0008 and U+000C; earlier releases write `\u0008` and `\u000c`). Invalid UTF-8 and the replacement character are not modelled, since Dafny strings are sequences of characters.
- ReadScripts.UnsufficientScript, TimeoutScript and StressScriptC start the C path from a zeroed `g_states` slot. The test binary runs them one after another on handle 1, so only TestReadRegular's C run starts zeroed. `ReusedSlotAsWritten` shows what the next run gets instead (see Findings).
- ReadScripts: `TestReadBigChunk` (pkg/sdk/symbols/read/read_test.go:131-141) is not scripted. It has the shape of the stress script with four refills, and the general lemmas about `Fill` cover it.
- ReadC.PluginRead requires the plugin-state handle to be below MAX_INSTANCES. The C code indexes `g_states` out of bounds otherwise, which is undefined behaviour. `HandlesOutrunInstances` shows the handle table can issue such handles.
- ReadC.Fill requires the Go reader to make progress: each refill either returns bytes or reports a code other than SUCCESS. Without that the C loop need not terminate, as `ZeroByteSuccessSpins` shows.
- Timeval.TimevalSubtract works on unbounded integers. The overflow of `tv_sec`/`tv_usec` near their limits is not modelled.
- The `examples/` and `benchmarks/` plugins, and the Go test harness code itself. Tests are used only as the source of scripted scenarios.

## Findings

| source | as written | input that shows it | evidently intended | confidence | as-written member | corrected member |
|---|---|---|---|---|---|---|
| bytes.go:141-154 | `Seek` computes the target for `SeekCurrent` and `SeekEnd`, checks it, and then stores the raw `offset` argument. Every whence behaves like `SeekStart` | offset 5, size 128: `Seek(10, io.SeekCurrent)` lands on 10 | land on 15 (cursor plus offset), as io.Seeker and `pkg/ptr/bytes_test.go:125-130` require | high, not executed | Bytes.SeekCurrentIgnoresCursor | Bytes.IntendedSeekKeepsBounds |
| bytes.go:136-140 | `SeekStart` stores the offset before its bound check, so a rejected seek still moves the cursor | offset 0, size 128: `Seek(129, io.SeekStart)` returns an error and leaves the offset at 129 | reject the seek and leave the offset where it was, keeping 0 <= Offset() <= Size() | high, not executed | Bytes.SeekStartErrorStoresOffset | Bytes.IntendedSeekKeepsBounds |
| pkg/sdk/symbols/read/read.c:46-83 | `g_states` is indexed by the plugin-state handle and never cleared, while `cgo.NewHandle` reissues the lowest free handle. A plugin state created on a reused handle inherits the previous state's buffered bytes and remembered code | the test binary runs TestReadRegular's C path on handle 1, which leaves slot 1 at EOF with nothing buffered; TestReadUnsufficient's C path gets handle 1 again, and `plugin_read(..., 20)` returns EOF with 0 bytes instead of 10 | each new plugin state reads from a zeroed slot | medium, not executed | ReadScripts.ReusedSlotAsWritten | ReadScripts.ReusedSlotReset |
