# s3chunkuploader: the chunk-to-part aggregator and the object key, in Dafny

`s3chunkuploader` streams a file that Django uploads into S3 through the multipart-upload API, without holding the whole file in memory. This project models its core, `ThreadedS3ChunkUploader` in `s3chunkuploader/file_handler.py`. The uploader takes the byte chunks Django hands it. It queues them until their total size strictly exceeds the minimum part size, or until the end-of-stream chunk (`None` or `b''`) arrives. Then it joins the queue into one part, gives it the next part number and submits an `upload_part` call to its thread pool. The project also models `generate_object_key`, which builds the S3 key from the document root, an optional prefix taken from the query string, and the file name with the upload time inserted before its extension.

Files:

- `wrappers.dfy` (module `Wrappers`): `Option` (a value or Python's `None`) and `Result` (a value or a raised error).
- `bytes.dfy` (module `Bytes`): bytes, `b''.join` (`Concat`) and the total length of a list of chunks.
- `chunk_uploader.dfy` (module `ChunkUploader`) contains:
  - the class `ThreadedS3ChunkUploader`, whose fields are the source's `part_number`, `parts`, `queue` and `current_queue_size`, plus `submitted`, the log of `upload_part` calls handed to the thread pool;
  - the pure function `AddStep`, which says what one `add` does;
  - `Run`, the state after a sequence of `add` calls;
  - the invariant `Inv` and the lemmas about them;
  - `GetParts`.
  
  The class's `Valid()` says that the object is in the state `Run` gives for the chunks added so far. So every lemma about `Run` holds of the object.
- `object_key.dfy` (module `ObjectKey`): the key assembly.

How the surroundings are represented:

- The minimum part size (`S3_MIN_PART_SIZE`) is a constructor parameter.
- The pool's `submit` appends the `upload_part` keyword arguments to `submitted`, an append-only log of the calls handed to the pool, and returns an opaque `Future` token: the task's position in that log.
- What a future's `result()` yields is a parameter of `GetParts`: a function from futures to either an ETag or the exception that was raised.
- For the key, the following are inputs:
  - the clock, as the already-formatted timestamp;
  - the settings, as already-read values;
  - the request's query string, as a map;
  - the file name, already split into base and extension.

Where the code and some descriptions of this system disagree, the model follows the code:

- The drain test at `file_handler.py:120` is strict (`>`). A chunk that brings the queue to exactly the minimum does not cut a part. So with a 10-byte minimum, chunks of 10, 5 and 5 bytes followed by `None` give parts of 15 and 5 bytes, not 10 and 10 (`StrictThresholdScenario`). Every part cut by the size rule is strictly larger than the minimum.
- A stream of no chunks, only the final `add(None)`, still uploads exactly one part, number 1, of zero bytes, because `add(None)` always cuts a part (`EmptyStreamUploadsOneEmptyPart`). A stream with no data can also contain `b''` chunks, and each of those cuts a part of its own (`EmptyChunkCutsPart`): `b''` then `None` uploads two zero-byte parts.
- An empty chunk `b''` is falsy like `None`. Arriving in the middle of a stream, it cuts a part from whatever is queued, even below the minimum, and that part is not the last one (`EmptyChunkCutsPart`). So "every part but the last exceeds the minimum" holds only when no empty chunk precedes the end of the stream; `RunPartsExceedMinimum`, `EndOfStreamPartSizes` and `CompleteStream` assume exactly that.

## Model

| member | source | states |
|---|---|---|
| `ChunkUploader.ThreadedS3ChunkUploader.constructor` | s3chunkuploader/file_handler.py:86-105 | stores bucket, key and upload id; `max_workers or 10` (missing or zero means ten); part number 0, no parts, empty queue, size 0 |
| `ChunkUploader.ThreadedS3ChunkUploader.Add` | s3chunkuploader/file_handler.py:107-133 | the new state is `AddStep` of the old one and the chunk; the object stays in the state `Run` gives for all chunks added so far, so the invariant `Inv` holds after every call |
| `ChunkUploader.ThreadedS3ChunkUploader.EnqueueChunk` | s3chunkuploader/file_handler.py:116-119 | a truthy chunk is appended to the queue and its length added to the running size; a falsy one changes nothing |
| `ChunkUploader.ThreadedS3ChunkUploader.SubmitPart` | s3chunkuploader/file_handler.py:120-132 | the part number is bumped, the queue drained and submitted as that part's `upload_part` call, and `(part_number, future)` appended to `parts`: the new state is `CutPart` of the old |
| `ChunkUploader.ThreadedS3ChunkUploader.DrainQueue` | s3chunkuploader/file_handler.py:135-145 | returns the queued chunks joined in order, of length equal to the total queued size, and leaves the queue empty with size 0 |
| `ChunkUploader.ThreadedS3ChunkUploader.Submit` | s3chunkuploader/file_handler.py:123-131 | the `upload_part` call is appended to the log of submitted calls, and the returned future is that task's position in the log |
| `ChunkUploader.EnqueueEffect` | s3chunkuploader/file_handler.py:115-119 | queuing a chunk appends it only when non-empty, grows the running size by its length, keeps size equal to the queued bytes and touches no part |
| `ChunkUploader.CutPartEffect` | s3chunkuploader/file_handler.py:120-132 | draining submits the whole joined queue as part N+1 with `ContentLength` equal to the body length, appends future N to `parts`, empties the queue and keeps the numbering 1..N+1 |
| `ChunkUploader.ConcatPayloadsSnoc` | s3chunkuploader/file_handler.py:116-118 | adding a chunk adds exactly its bytes (none for `None` or `b''`) to the data given so far |
| `ChunkUploader.EnqueueAccepted` | s3chunkuploader/file_handler.py:118-119 | queuing a chunk adds its bytes at the end of everything accepted so far |
| `ChunkUploader.CutPartAccepted` | s3chunkuploader/file_handler.py:122-142 | draining moves the queued bytes into the new part unchanged: nothing accepted is lost, duplicated or reordered |
| `ChunkUploader.AddStepPreservesInv` | s3chunkuploader/file_handler.py:115-132 | one `add` keeps the invariant: size equals the queued bytes and is at most the minimum, no empty chunk is queued, parts numbered 1..N with matching futures and well-formed `upload_part` calls |
| `ChunkUploader.AddStepEffect` | s3chunkuploader/file_handler.py:115-132 | a part is cut exactly when the chunk is falsy or the size strictly exceeds the minimum; the invariant is kept; the cut part is the whole queue including the chunk, gets number N+1, and exceeds the minimum when the size rule cut it; otherwise the chunk is queued and size grows by its length; earlier parts never change |
| `ChunkUploader.RunInv` | s3chunkuploader/file_handler.py:101-132 | after any sequence of `add` calls: `part_number == len(parts)`, parts are `(i+1, future i)` with no gap or duplicate, the size matches the queue and never exceeds the minimum |
| `ChunkUploader.AddStepRoundTrip` | s3chunkuploader/file_handler.py:115-145 | from any state, one `add` neither loses, duplicates nor reorders bytes: part bodies then queue grow by exactly the chunk's bytes |
| `ChunkUploader.RunRoundTrip` | s3chunkuploader/file_handler.py:115-145 | the submitted part bodies in part order, followed by the still-queued bytes, are exactly the non-empty chunks given to `add`, in order |
| `ChunkUploader.RunPartsExceedMinimum` | s3chunkuploader/file_handler.py:120-131 | while only non-empty chunks arrive, every part is strictly larger than the minimum part size |
| `ChunkUploader.EmptyChunkCutsPart` | s3chunkuploader/file_handler.py:116-131 | a `b''` chunk anywhere in the stream cuts a part holding exactly the queued bytes, however few, and empties the queue |
| `ChunkUploader.EndOfStreamDrains` | s3chunkuploader/file_handler.py:116-131 | `add(None)` always cuts one last part holding exactly the queued bytes (at most the minimum, possibly none) and empties the queue |
| `ChunkUploader.EndOfStreamRoundTrip` | s3chunkuploader/file_handler.py:115-145 | after the final `add(None)` nothing stays queued: the part bodies joined in part order are exactly the data of every chunk given to `add` |
| `ChunkUploader.EndOfStreamPartSizes` | s3chunkuploader/file_handler.py:116-131 | when only non-empty chunks precede `add(None)`: at least one part, every part but the last exceeds the minimum, the last does not |
| `ChunkUploader.RunPartNumbers` | s3chunkuploader/file_handler.py:121-126 | after any sequence of `add` calls the submitted `upload_part` calls carry part numbers 1..N in order |
| `ChunkUploader.CompleteStream` | s3chunkuploader/file_handler.py:107-145 | for data chunks then `add(None)`: at least one part, numbered 1..N, every part but the last exceeds the minimum, the last does not, and the parts joined are the whole file |
| `ChunkUploader.EmptyStreamUploadsOneEmptyPart` | s3chunkuploader/file_handler.py:116-132 | a stream of no chunks, only the final `add(None)`, uploads exactly one part, number 1, of zero bytes |
| `ChunkUploader.StrictThresholdScenario` | s3chunkuploader/file_handler.py:120 | with a 10-byte minimum a 10-byte chunk stays queued; chunks of 10, 5, 5 bytes and `None` give parts `ten+five1` and `five2` |
| `ChunkUploader.GetParts` | s3chunkuploader/file_handler.py:147-157 | succeeds exactly when every future yielded an ETag; then one `{PartNumber, ETag}` per element of `parts`, same order, numbers preserved; otherwise the error is that of the first future, in `parts` order, that raised |
| `ChunkUploader.GetPartsOfRun` | s3chunkuploader/file_handler.py:153-157 | after any run of `add`, a successful `get_parts` lists parts 1..N ascending, one per submitted part, each with its own task's ETag |
| `ChunkUploader.FileCompleteParts` | s3chunkuploader/file_handler.py:206-215 | `add(None)` then `get_parts`, as `file_complete` does: a successful `get_parts` lists at least one part, numbered 1..N in order, each with its own task's ETag, and those parts' bodies joined in order are the whole file |
| `Bytes.Concat` | s3chunkuploader/file_handler.py:142 | the joined body's length is the sum of the chunk lengths |
| `Bytes.ConcatAppend` | s3chunkuploader/file_handler.py:142 | joining distributes over list concatenation |
| `ObjectKey.FileName` | s3chunkuploader/file_handler.py:60-64 | the file name starts with the base and ends with the extension; between them is nothing when appending is off, and an underscore followed by the timestamp when it is on |
| `ObjectKey.KeySegments` | s3chunkuploader/file_handler.py:65-70 | the file name is the last segment; the root comes first when non-empty; the prefix is the segment before the file name exactly when used |
| `ObjectKey.DirectoryLayout` | s3chunkuploader/file_handler.py:65-69 | the directory part of the key is the root and a `/` unless the root is empty, then the prefix and a `/` when there is one |
| `ObjectKey.JoinPathAsDirectory` | s3chunkuploader/file_handler.py:69-71 | joining directories and a name is each directory followed by `/`, then the name |
| `ObjectKey.GenerateObjectKey` | s3chunkuploader/file_handler.py:49-71 | the key ends with the file name, preceded by `/` whenever anything precedes it |
| `ObjectKey.KeyLayout` | s3chunkuploader/file_handler.py:60-71 | the key is `root/` (absent when the root setting is missing or empty), then `value/` when a query parameter name is configured and the request gives it a non-empty value, then the base, `_` and the timestamp when appending is on, and the extension |
| `ObjectKey.GenerateObjectKeyAsWritten` | s3chunkuploader/file_handler.py:65 | fails exactly when the root setting is absent; otherwise gives the corrected key |
| `ObjectKey.MissingRootSettingRaises` | s3chunkuploader/file_handler.py:65 | without the root setting the code as written fails, while the corrected key is `[value/]` then base, `[_timestamp]`, extension |

## Left out

- `S3Wrapper` and `s3_client` (lines 24-46): a cached boto3 client singleton. It is a foreign library and global state. The `client` argument of the uploader is not a field of the model.
- The thread pool inherited from `ThreadPoolExecutor`: worker threads, concurrent execution, `shutdown`, and `future.result()` blocking. This is concurrency. Submission is an append to the `submitted` log, and results are the `outcome` parameter of `GetParts`. Errors that `submit` itself can raise (for example after `shutdown`) are not modelled.
- `S3FileUploadHandler` (lines 160-237): Django upload-handler plumbing, S3 create/complete/abort calls and django-storages file objects. These are library calls. Only their use of the uploader is reflected: `add` for every chunk, then `add(None)` and `get_parts` (`CompleteStream`, `FileCompleteParts`). The `complete_multipart_upload` call itself is not modelled. The abort on an exception in `add` is not modelled.
- `UploadFailed` and logging: no behaviour to model.
- Settings loading at lines 15-21: values are passed in. `S3_MIN_PART_SIZE` is a constructor parameter. The datetime and prefix settings are parameters of the key functions.
- `timezone.now().strftime(...)`: the formatted timestamp is a parameter.
- `request.GET`: it is a map with one value per name. Django's multi-valued query parameters are not modelled.
- `pathlib` and `os.path.splitext` semantics: the base and extension arrive already split. Beyond "an empty root adds no segment", these path rules are not modelled:
  - normalisation of separators inside the root or the prefix;
  - absolute prefixes replacing the root;
  - empty file names;
  - `.` segments in the root or the prefix, which pathlib drops (`Path('.') / 'a.txt'` is `a.txt`), while the model keeps them (`./a.txt`). The prefix comes from the query string, so a request can supply `.`.
- `ObjectKey.KeyLayout` and `ObjectKey.GenerateObjectKey` differ from the source when the root or the prefix is `.`: they give `./a.txt` or `r/./a.txt` where pathlib gives `a.txt` or `r/a.txt`. Path normalisation is outside the model.
- `s3chunkuploader/fields.py`: a Django `FileField.save` override that mutates ORM state.
- `setup.py`: packaging.
- `tests/test_prefixed_keys.py`: it tests a `get_setting` helper that `file_handler.py` does not define.

## Findings

| source | as written | input that shows it | evidently intended | confidence | as-written member | corrected member |
|---|---|---|---|---|---|---|
| s3chunkuploader/file_handler.py:65 | reads `settings.S3_DOCUMENT_ROOT_DIRECTORY` at call time. This bypasses the module constant defined with a `''` default at line 18, which is never used. | a settings module without `S3_DOCUMENT_ROOT_DIRECTORY`: every upload raises `AttributeError` while building the key (`MissingRootSettingRaises`) | fall back to the empty root, giving the key `[prefix/]file name` | medium; not executed | `ObjectKey.GenerateObjectKeyAsWritten` | `ObjectKey.GenerateObjectKey` |
