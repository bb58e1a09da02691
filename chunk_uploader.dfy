/** The chunk-to-part aggregator of `ThreadedS3ChunkUploader`: chunks are queued
    until their running size exceeds the minimum part size (or the end-of-stream
    chunk arrives), then the queue is joined into one part, numbered, and handed
    to the thread pool as an `upload_part` call. */
module ChunkUploader {
  import opened Wrappers
  import opened Bytes

  /** Python truthiness of the `body` argument of `add`: `None` and `b''` are
      both false and both act as the end-of-stream signal. */
  predicate IsData(body: Option<Bytes>)
  {
    body.Some? && body.value != []
  }

  /** Handle returned by the pool's `submit`: the position of the task in the
      submitted task in the log of calls handed to the pool. Nothing else about
      it is observable here. */
  datatype Future = Future(ticket: nat)

  /** One element of `parts`: the pair `(part_number, future)`. */
  datatype PartHandle = PartHandle(partNumber: nat, future: Future)

  /** The keyword arguments of one `client.upload_part` call handed to the pool. */
  datatype UploadPartRequest = UploadPartRequest(
    bucket: string, key: string, partNumber: nat, uploadId: string,
    body: Bytes, contentLength: nat)

  /** Where the parts go: bucket, object key and multipart upload id. */
  datatype Target = Target(bucket: string, key: string, uploadId: string)

  /** The mutable fields of the uploader plus the log of calls submitted to the pool. */
  datatype Uploader = Uploader(
    partNumber: nat,
    parts: seq<PartHandle>,
    queue: seq<Bytes>,
    currentQueueSize: nat,
    submitted: seq<UploadPartRequest>)

  /** The state right after `__init__`. */
  const Initial := Uploader(0, [], [], 0, [])

  /** The bytes a chunk contributes: its contents when truthy, else nothing. */
  function Data(body: Option<Bytes>): Bytes
  {
    if IsData(body) then body.value else []
  }

  /** The first half of `add`: a truthy chunk is appended to the queue and its
      length added to the running size. */
  function Enqueue(s: Uploader, body: Option<Bytes>): Uploader
  {
    if IsData(body) then
      s.(queue := s.queue + [body.value], currentQueueSize := s.currentQueueSize + |body.value|)
    else s
  }

  /** The second half of `add`: bump the part number, drain the queue into one
      body, submit its `upload_part` call and record `(part_number, future)`. */
  function CutPart(t: Target, s: Uploader): Uploader
  {
    var n := s.partNumber + 1;
    var part := Concat(s.queue);
    Uploader(
      n,
      s.parts + [PartHandle(n, Future(|s.submitted|))],
      [],
      0,
      s.submitted + [UploadPartRequest(t.bucket, t.key, n, t.uploadId, part, |part|)])
  }

  /** What `add(body)` does to the state. */
  function AddStep(t: Target, minPartSize: nat, s: Uploader, body: Option<Bytes>): Uploader
  {
    var s1 := Enqueue(s, body);
    if !IsData(body) || s1.currentQueueSize > minPartSize then CutPart(t, s1) else s1
  }

  /** The state after `add` has been called with each of `chunks` in turn. */
  function Run(t: Target, minPartSize: nat, chunks: seq<Option<Bytes>>): Uploader
    decreases |chunks|
  {
    if chunks == [] then Initial
    else AddStep(t, minPartSize, Run(t, minPartSize, chunks[..|chunks| - 1]), chunks[|chunks| - 1])
  }

  lemma RunSnoc(t: Target, minPartSize: nat, chunks: seq<Option<Bytes>>, c: Option<Bytes>)
    ensures Run(t, minPartSize, chunks + [c]) == AddStep(t, minPartSize, Run(t, minPartSize, chunks), c)
  {
    assert (chunks + [c])[..|chunks|] == chunks;
  }

  /** The bytes of the chunks that `add` queued: the truthy ones, in order. */
  function Payloads(chunks: seq<Option<Bytes>>): seq<Bytes>
    decreases |chunks|
  {
    if chunks == [] then []
    else Payloads(chunks[..|chunks| - 1]) + (if IsData(chunks[|chunks| - 1]) then [chunks[|chunks| - 1].value] else [])
  }

  lemma ConcatPayloadsSnoc(chunks: seq<Option<Bytes>>, c: Option<Bytes>)
    ensures Concat(Payloads(chunks + [c])) == Concat(Payloads(chunks)) + Data(c)
  {
    assert (chunks + [c])[..|chunks|] == chunks;
    if IsData(c) {
      ConcatSnoc(Payloads(chunks), c.value);
    } else {
      assert Payloads(chunks + [c]) == Payloads(chunks);
    }
  }

  /** The part bodies handed to the pool, in submission order. */
  function Bodies(requests: seq<UploadPartRequest>): seq<Bytes>
    decreases |requests|
  {
    if requests == [] then []
    else Bodies(requests[..|requests| - 1]) + [requests[|requests| - 1].body]
  }

  lemma BodiesSnoc(requests: seq<UploadPartRequest>, r: UploadPartRequest)
    ensures Bodies(requests + [r]) == Bodies(requests) + [r.body]
  {
    assert (requests + [r])[..|requests|] == requests;
  }

  /** An `upload_part` call for part `n` of the upload `t`, with a consistent length. */
  predicate WellFormedRequest(t: Target, n: nat, r: UploadPartRequest)
  {
    r.bucket == t.bucket && r.key == t.key && r.uploadId == t.uploadId &&
    r.partNumber == n && r.contentLength == |r.body|
  }

  /** The running size is the size of the queue, which holds no empty chunk. */
  predicate QueueInv(s: Uploader)
  {
    && s.currentQueueSize == TotalSize(s.queue)
    && (forall i | 0 <= i < |s.queue| :: s.queue[i] != [])
  }

  /** `part_number == len(parts)`, the parts are numbered 1..N in order with the
      future of the matching pool task, and each task is part i+1's upload. */
  predicate PartsInv(t: Target, s: Uploader)
  {
    && s.partNumber == |s.parts| == |s.submitted|
    && (forall i | 0 <= i < |s.parts| :: s.parts[i] == PartHandle(i + 1, Future(i)))
    && (forall i | 0 <= i < |s.submitted| :: WellFormedRequest(t, i + 1, s.submitted[i]))
  }

  /** The invariant the uploader keeps between calls to `add`. */
  predicate Inv(t: Target, minPartSize: nat, s: Uploader)
  {
    QueueInv(s) && s.currentQueueSize <= minPartSize && PartsInv(t, s)
  }

  /** Appending a chunk keeps the queue invariant and touches no part. */
  lemma EnqueueEffect(s: Uploader, body: Option<Bytes>)
    requires QueueInv(s)
    ensures var s' := Enqueue(s, body);
      && QueueInv(s')
      && s'.queue == (if IsData(body) then s.queue + [body.value] else s.queue)
      && s'.currentQueueSize == s.currentQueueSize + |Data(body)|
      && Concat(s'.queue) == Concat(s.queue) + Data(body)
      && s'.partNumber == s.partNumber && s'.parts == s.parts && s'.submitted == s.submitted
  {
    if IsData(body) {
      ConcatSnoc(s.queue, body.value);
      var s' := Enqueue(s, body);
      forall i | 0 <= i < |s'.queue| ensures s'.queue[i] != [] {
        if i < |s.queue| {
          assert s'.queue[i] == s.queue[i];
        }
      }
    } else {
      assert s.queue + [] == s.queue;
    }
  }

  /** Cutting a part submits the whole queue as part N+1 and keeps the part
      numbering invariant; earlier parts never change. */
  lemma CutPartEffect(t: Target, s: Uploader)
    requires PartsInv(t, s)
    ensures var s' := CutPart(t, s);
      && PartsInv(t, s')
      && QueueInv(s')
      && s'.queue == [] && s'.currentQueueSize == 0
      && s'.submitted == s.submitted + [UploadPartRequest(t.bucket, t.key, |s.submitted| + 1, t.uploadId, Concat(s.queue), |Concat(s.queue)|)]
      && s'.parts == s.parts + [PartHandle(|s.parts| + 1, Future(|s.submitted|))]
  {
    var s' := CutPart(t, s);
    forall i | 0 <= i < |s'.parts| ensures s'.parts[i] == PartHandle(i + 1, Future(i)) {
      if i < |s.parts| {
        assert s'.parts[i] == s.parts[i];
      }
    }
    forall i | 0 <= i < |s'.submitted| ensures WellFormedRequest(t, i + 1, s'.submitted[i]) {
      if i < |s.submitted| {
        assert s'.submitted[i] == s.submitted[i];
      }
    }
  }

  /** What one `add` does, stated against the invariant:
      a part is cut exactly when the chunk is falsy or the queued size strictly
      exceeds the minimum; a cut part is the whole queue (including the new
      chunk), gets the next part number, and is larger than the minimum when the
      size rule cut it; without a cut the chunk is simply queued. Parts already
      handed to the pool never change, and the invariant is kept. */
  lemma AddStepEffect(t: Target, minPartSize: nat, s: Uploader, body: Option<Bytes>)
    requires Inv(t, minPartSize, s)
    ensures var s' := AddStep(t, minPartSize, s, body);
      var drained := !IsData(body) || s.currentQueueSize + |Data(body)| > minPartSize;
      var queued := Enqueue(s, body).queue;
      && Inv(t, minPartSize, s')
      && (drained ==>
            && s'.submitted == s.submitted + [UploadPartRequest(t.bucket, t.key, |s.submitted| + 1, t.uploadId, Concat(queued), |Concat(queued)|)]
            && s'.parts == s.parts + [PartHandle(|s.parts| + 1, Future(|s.submitted|))]
            && s'.queue == [] && s'.currentQueueSize == 0)
      && (!drained ==>
            && s'.submitted == s.submitted && s'.parts == s.parts
            && s'.queue == queued && s'.currentQueueSize == s.currentQueueSize + |Data(body)|)
      && |Concat(queued)| == s.currentQueueSize + |Data(body)|
      && (drained && IsData(body) ==> |Concat(queued)| > minPartSize)
      && (!IsData(body) ==> queued == s.queue && |Concat(queued)| <= minPartSize)
  {
    var s1 := Enqueue(s, body);
    EnqueueEffect(s, body);
    if !IsData(body) || s1.currentQueueSize > minPartSize {
      CutPartEffect(t, s1);
    }
  }

  /** `add` keeps the invariant. */
  lemma AddStepPreservesInv(t: Target, minPartSize: nat, s: Uploader, body: Option<Bytes>)
    requires Inv(t, minPartSize, s)
    ensures Inv(t, minPartSize, AddStep(t, minPartSize, s, body))
  {
    AddStepEffect(t, minPartSize, s, body);
  }

  /** After any sequence of calls to `add` the invariant holds: the running size
      matches the queue and never exceeds the minimum, and the parts are numbered
      1..N with no gap, each future belonging to the matching pool task. */
  lemma {:induction false} RunInv(t: Target, minPartSize: nat, chunks: seq<Option<Bytes>>)
    ensures Inv(t, minPartSize, Run(t, minPartSize, chunks))
    decreases |chunks|
  {
    if chunks != [] {
      var init, c := chunks[..|chunks| - 1], chunks[|chunks| - 1];
      RunInv(t, minPartSize, init);
      AddStepPreservesInv(t, minPartSize, Run(t, minPartSize, init), c);
    }
  }

  /** Every byte the uploader has accepted: the part bodies in part order, then
      the bytes still queued. */
  function Accepted(s: Uploader): Bytes
  {
    Concat(Bodies(s.submitted)) + Concat(s.queue)
  }

  /** Appending a chunk adds its bytes at the end of the accepted bytes. */
  lemma EnqueueAccepted(s: Uploader, body: Option<Bytes>)
    ensures Accepted(Enqueue(s, body)) == Accepted(s) + Data(body)
  {
    if IsData(body) {
      ConcatSnoc(s.queue, body.value);
      var b, q := Concat(Bodies(s.submitted)), Concat(s.queue);
      assert b + (q + body.value) == (b + q) + body.value;
    } else {
      assert Accepted(s) + [] == Accepted(s);
    }
  }

  /** Cutting a part moves the queued bytes into the last part unchanged. */
  lemma CutPartAccepted(t: Target, s: Uploader)
    ensures Accepted(CutPart(t, s)) == Accepted(s)
  {
    var s' := CutPart(t, s);
    var r := UploadPartRequest(t.bucket, t.key, s.partNumber + 1, t.uploadId, Concat(s.queue), |Concat(s.queue)|);
    assert s'.submitted == s.submitted + [r];
    BodiesSnoc(s.submitted, r);
    ConcatSnoc(Bodies(s.submitted), Concat(s.queue));
    assert Concat(s'.queue) == [];
    assert Accepted(s') == Concat(Bodies(s.submitted)) + Concat(s.queue) + [];
  }

  /** One `add` moves bytes from the queue into a new part without losing,
      duplicating or reordering any: the accepted bytes grow by the chunk. */
  lemma AddStepRoundTrip(t: Target, minPartSize: nat, s: Uploader, body: Option<Bytes>)
    ensures Accepted(AddStep(t, minPartSize, s, body)) == Accepted(s) + Data(body)
  {
    var s1 := Enqueue(s, body);
    EnqueueAccepted(s, body);
    if !IsData(body) || s1.currentQueueSize > minPartSize {
      CutPartAccepted(t, s1);
    }
  }

  /** Round trip: the bodies handed to the pool, in part order, followed by the
      bytes still queued, are exactly the bytes of every non-empty chunk given to
      `add`, in order. */
  lemma {:induction false} RunRoundTrip(t: Target, minPartSize: nat, chunks: seq<Option<Bytes>>)
    ensures Accepted(Run(t, minPartSize, chunks)) == Concat(Payloads(chunks))
    decreases |chunks|
  {
    if chunks != [] {
      var init, c := chunks[..|chunks| - 1], chunks[|chunks| - 1];
      assert chunks == init + [c];
      RunRoundTrip(t, minPartSize, init);
      RunSnoc(t, minPartSize, init, c);
      AddStepRoundTrip(t, minPartSize, Run(t, minPartSize, init), c);
      ConcatPayloadsSnoc(init, c);
    }
  }

  /** While only non-empty chunks arrive, every part is cut by the size rule and
      so is strictly larger than the minimum part size. */
  lemma {:induction false} RunPartsExceedMinimum(t: Target, minPartSize: nat, chunks: seq<Option<Bytes>>)
    requires forall i | 0 <= i < |chunks| :: IsData(chunks[i])
    ensures forall i | 0 <= i < |Run(t, minPartSize, chunks).submitted| ::
      |Run(t, minPartSize, chunks).submitted[i].body| > minPartSize
    decreases |chunks|
  {
    if chunks != [] {
      var init, c := chunks[..|chunks| - 1], chunks[|chunks| - 1];
      assert chunks == init + [c];
      var s := Run(t, minPartSize, init);
      RunPartsExceedMinimum(t, minPartSize, init);
      RunInv(t, minPartSize, init);
      RunSnoc(t, minPartSize, init, c);
      AddStepEffect(t, minPartSize, s, c);
      var s' := AddStep(t, minPartSize, s, c);
      forall i | 0 <= i < |s'.submitted|
        ensures |s'.submitted[i].body| > minPartSize
      {
        if i < |s.submitted| {
          assert s'.submitted[i] == s.submitted[i];
        }
      }
    }
  }

  /** The final `add(None)`: it always cuts one last part holding whatever was
      still queued (at most the minimum part size, possibly nothing) and leaves
      the queue empty. */
  lemma EndOfStreamDrains(t: Target, minPartSize: nat, chunks: seq<Option<Bytes>>)
    ensures var s := Run(t, minPartSize, chunks);
      var s' := Run(t, minPartSize, chunks + [None]);
      && s'.queue == [] && s'.currentQueueSize == 0
      && s'.submitted == s.submitted + [UploadPartRequest(t.bucket, t.key, |s.submitted| + 1, t.uploadId, Concat(s.queue), |Concat(s.queue)|)]
      && |Concat(s.queue)| <= minPartSize
  {
    RunSnoc(t, minPartSize, chunks, None);
    RunInv(t, minPartSize, chunks);
    AddStepEffect(t, minPartSize, Run(t, minPartSize, chunks), None);
  }

  /** After the final `add(None)` nothing is left queued, so the part bodies
      joined in part order are exactly the data of every chunk given to `add`. */
  lemma EndOfStreamRoundTrip(t: Target, minPartSize: nat, chunks: seq<Option<Bytes>>)
    ensures Concat(Bodies(Run(t, minPartSize, chunks + [None]).submitted)) == Concat(Payloads(chunks))
  {
    var s := Run(t, minPartSize, chunks + [None]);
    RunRoundTrip(t, minPartSize, chunks + [None]);
    ConcatPayloadsSnoc(chunks, None);
    assert s.queue == [] by {
      EndOfStreamDrains(t, minPartSize, chunks);
    }
    var bodies, payloads := Concat(Bodies(s.submitted)), Concat(Payloads(chunks));
    assert bodies + [] == bodies && payloads + [] == payloads;
    calc {
      bodies;
      Accepted(s);
      Concat(Payloads(chunks + [None]));
      payloads;
    }
  }

  /** An empty chunk `b''` is falsy too: in the middle of a stream it cuts a
      part from whatever is queued, however small, and later chunks start a
      new part. */
  lemma EmptyChunkCutsPart(t: Target, minPartSize: nat, chunks: seq<Option<Bytes>>)
    ensures var s := Run(t, minPartSize, chunks);
      var s' := Run(t, minPartSize, chunks + [Some([])]);
      && s'.queue == [] && s'.currentQueueSize == 0
      && s'.submitted == s.submitted + [UploadPartRequest(t.bucket, t.key, |s.submitted| + 1, t.uploadId, Concat(s.queue), |Concat(s.queue)|)]
  {
    RunSnoc(t, minPartSize, chunks, Some([]));
    RunInv(t, minPartSize, chunks);
    AddStepEffect(t, minPartSize, Run(t, minPartSize, chunks), Some([]));
  }

  /** When only non-empty chunks precede the final `add(None)`, every part but
      the last was cut by the size rule and exceeds the minimum part size; the
      last holds the remainder and does not. */
  lemma EndOfStreamPartSizes(t: Target, minPartSize: nat, chunks: seq<Option<Bytes>>)
    requires forall i | 0 <= i < |chunks| :: IsData(chunks[i])
    ensures var s := Run(t, minPartSize, chunks + [None]);
      && |s.submitted| >= 1
      && (forall i | 0 <= i < |s.submitted| - 1 :: |s.submitted[i].body| > minPartSize)
      && |s.submitted[|s.submitted| - 1].body| <= minPartSize
  {
    var s0 := Run(t, minPartSize, chunks);
    var s := Run(t, minPartSize, chunks + [None]);
    var last := UploadPartRequest(t.bucket, t.key, |s0.submitted| + 1, t.uploadId, Concat(s0.queue), |Concat(s0.queue)|);
    assert s.submitted == s0.submitted + [last] && |last.body| <= minPartSize by {
      EndOfStreamDrains(t, minPartSize, chunks);
    }
    assert forall i | 0 <= i < |s0.submitted| :: |s0.submitted[i].body| > minPartSize by {
      RunPartsExceedMinimum(t, minPartSize, chunks);
    }
    LastPartAppended(s0.submitted, last, minPartSize);
  }

  /** Appending one request after requests whose bodies all exceed a bound:
      only the new last one may fall short of it. */
  lemma LastPartAppended(requests: seq<UploadPartRequest>, last: UploadPartRequest, bound: nat)
    requires forall i | 0 <= i < |requests| :: |requests[i].body| > bound
    ensures var all := requests + [last];
      && all[|all| - 1] == last
      && forall i | 0 <= i < |all| - 1 :: |all[i].body| > bound
  {
    var all := requests + [last];
    forall i | 0 <= i < |all| - 1
      ensures |all[i].body| > bound
    {
      assert all[i] == requests[i];
    }
  }

  /** After any sequence of `add` calls the submitted parts carry the numbers
      1..N, in order. */
  lemma RunPartNumbers(t: Target, minPartSize: nat, chunks: seq<Option<Bytes>>)
    ensures var s := Run(t, minPartSize, chunks);
      forall i | 0 <= i < |s.submitted| :: s.submitted[i].partNumber == i + 1
  {
    RunInv(t, minPartSize, chunks);
    var s := Run(t, minPartSize, chunks);
    assert forall i | 0 <= i < |s.submitted| :: WellFormedRequest(t, i + 1, s.submitted[i]);
  }

  /** A whole upload: non-empty chunks followed by the final `add(None)`. The parts
      are numbered 1..N, every part but the last exceeds the minimum part size,
      the last one does not, and the parts joined in order are the file. */
  lemma CompleteStream(t: Target, minPartSize: nat, chunks: seq<Option<Bytes>>)
    requires forall i | 0 <= i < |chunks| :: IsData(chunks[i])
    ensures var s := Run(t, minPartSize, chunks + [None]);
      && |s.submitted| >= 1
      && s.queue == []
      && (forall i | 0 <= i < |s.submitted| :: s.submitted[i].partNumber == i + 1)
      && (forall i | 0 <= i < |s.submitted| - 1 :: |s.submitted[i].body| > minPartSize)
      && |s.submitted[|s.submitted| - 1].body| <= minPartSize
      && Concat(Bodies(s.submitted)) == Concat(Payloads(chunks))
  {
    EndOfStreamDrains(t, minPartSize, chunks);
    EndOfStreamPartSizes(t, minPartSize, chunks);
    RunPartNumbers(t, minPartSize, chunks + [None]);
    EndOfStreamRoundTrip(t, minPartSize, chunks);
  }

  /** A stream of no chunks, only the final `add(None)`, still uploads exactly
      one part, number 1, of zero bytes. */
  lemma EmptyStreamUploadsOneEmptyPart(t: Target, minPartSize: nat)
    ensures Run(t, minPartSize, [None]).submitted == [UploadPartRequest(t.bucket, t.key, 1, t.uploadId, [], 0)]
    ensures Run(t, minPartSize, [None]).parts == [PartHandle(1, Future(0))]
  {
    RunSnoc(t, minPartSize, [], None);
    var none: seq<Option<Bytes>> := [None];
    assert [] + none == none;
    CutPartEffect(t, Initial);
  }

  /** The drain test is strict: with a minimum of 10 bytes, a first chunk of
      exactly 10 bytes stays queued, so chunks of 10, 5 and 5 bytes followed by
      `None` give a first part of 15 bytes and a second of 5. */
  lemma StrictThresholdScenario(t: Target, ten: Bytes, five1: Bytes, five2: Bytes)
    requires |ten| == 10 && |five1| == 5 && |five2| == 5
    ensures Run(t, 10, [Some(ten)]).submitted == []
    ensures Bodies(Run(t, 10, [Some(ten), Some(five1), Some(five2), None]).submitted) == [ten + five1, five2]
  {
    assert Run(t, 10, [Some(ten)]).submitted == [] by {
      ScenarioAfterTen(t, ten);
    }
    var r1 := UploadPartRequest(t.bucket, t.key, 1, t.uploadId, ten + five1, 15);
    var r2 := UploadPartRequest(t.bucket, t.key, 2, t.uploadId, five2, 5);
    assert Run(t, 10, [Some(ten), Some(five1), Some(five2), None]).submitted == [r1, r2] by {
      ScenarioAfterNone(t, ten, five1, five2);
    }
    BodiesOfTwo(r1, r2);
  }

  lemma BodiesOfTwo(r1: UploadPartRequest, r2: UploadPartRequest)
    ensures Bodies([r1, r2]) == [r1.body, r2.body]
  {
    BodiesSnoc([], r1);
    assert [] + [r1] == [r1];
    BodiesSnoc([r1], r2);
    assert [r1] + [r2] == [r1, r2];
  }

  lemma ScenarioAfterTen(t: Target, ten: Bytes)
    requires |ten| == 10
    ensures Run(t, 10, [Some(ten)]) == Uploader(0, [], [ten], 10, [])
  {
    RunSnoc(t, 10, [], Some(ten));
    assert [] + [Some(ten)] == [Some(ten)];
    assert Enqueue(Initial, Some(ten)) == Uploader(0, [], [ten], 10, []);
  }

  /** The second chunk brings the queue to 15 > 10 bytes: part 1 is cut. */
  lemma ScenarioStepFive1(t: Target, ten: Bytes, five1: Bytes)
    requires |ten| == 10 && |five1| == 5
    ensures AddStep(t, 10, Uploader(0, [], [ten], 10, []), Some(five1)) ==
      Uploader(1, [PartHandle(1, Future(0))], [], 0, [UploadPartRequest(t.bucket, t.key, 1, t.uploadId, ten + five1, 15)])
  {
    var queue := [ten, five1];
    assert Concat(queue) == ten + five1 by {
      ConcatSnoc([], ten);
      assert [] + [ten] == [ten];
      ConcatSnoc([ten], five1);
      assert [ten] + [five1] == queue;
    }
    var e := Uploader(0, [], queue, 15, []);
    assert Enqueue(Uploader(0, [], [ten], 10, []), Some(five1)) == e by {
      assert [ten] + [five1] == queue;
    }
    assert CutPart(t, e) ==
      Uploader(1, [PartHandle(1, Future(0))], [], 0, [UploadPartRequest(t.bucket, t.key, 1, t.uploadId, ten + five1, 15)]);
  }

  lemma ScenarioAfterFive1(t: Target, ten: Bytes, five1: Bytes)
    requires |ten| == 10 && |five1| == 5
    ensures Run(t, 10, [Some(ten), Some(five1)]) ==
      Uploader(1, [PartHandle(1, Future(0))], [], 0, [UploadPartRequest(t.bucket, t.key, 1, t.uploadId, ten + five1, 15)])
  {
    ScenarioAfterTen(t, ten);
    RunSnoc(t, 10, [Some(ten)], Some(five1));
    assert [Some(ten)] + [Some(five1)] == [Some(ten), Some(five1)];
    ScenarioStepFive1(t, ten, five1);
  }

  lemma ScenarioAfterFive2(t: Target, ten: Bytes, five1: Bytes, five2: Bytes)
    requires |ten| == 10 && |five1| == 5 && |five2| == 5
    ensures Run(t, 10, [Some(ten), Some(five1), Some(five2)]) ==
      Uploader(1, [PartHandle(1, Future(0))], [five2], 5, [UploadPartRequest(t.bucket, t.key, 1, t.uploadId, ten + five1, 15)])
  {
    ScenarioAfterFive1(t, ten, five1);
    RunSnoc(t, 10, [Some(ten), Some(five1)], Some(five2));
    assert [Some(ten), Some(five1)] + [Some(five2)] == [Some(ten), Some(five1), Some(five2)];
    assert [] + [five2] == [five2];
  }

  /** The final `None` cuts part 2 from the 5 queued bytes. */
  lemma ScenarioStepNone(t: Target, ten: Bytes, five1: Bytes, five2: Bytes)
    requires |ten| == 10 && |five1| == 5 && |five2| == 5
    ensures var p1 := PartHandle(1, Future(0));
      var r1 := UploadPartRequest(t.bucket, t.key, 1, t.uploadId, ten + five1, 15);
      AddStep(t, 10, Uploader(1, [p1], [five2], 5, [r1]), None) ==
        Uploader(2, [p1, PartHandle(2, Future(1))], [], 0, [r1, UploadPartRequest(t.bucket, t.key, 2, t.uploadId, five2, 5)])
  {
    var p1 := PartHandle(1, Future(0));
    var r1 := UploadPartRequest(t.bucket, t.key, 1, t.uploadId, ten + five1, 15);
    var s3 := Uploader(1, [p1], [five2], 5, [r1]);
    assert Enqueue(s3, None) == s3;
    assert Concat([five2]) == five2 by {
      ConcatSnoc([], five2);
      assert [] + [five2] == [five2];
    }
  }

  lemma ScenarioAfterNone(t: Target, ten: Bytes, five1: Bytes, five2: Bytes)
    requires |ten| == 10 && |five1| == 5 && |five2| == 5
    ensures Run(t, 10, [Some(ten), Some(five1), Some(five2), None]) ==
      Uploader(
        2, [PartHandle(1, Future(0)), PartHandle(2, Future(1))], [], 0,
        [UploadPartRequest(t.bucket, t.key, 1, t.uploadId, ten + five1, 15),
         UploadPartRequest(t.bucket, t.key, 2, t.uploadId, five2, 5)])
  {
    var c3 := [Some(ten), Some(five1), Some(five2)];
    var p1 := PartHandle(1, Future(0));
    var r1 := UploadPartRequest(t.bucket, t.key, 1, t.uploadId, ten + five1, 15);
    var s3 := Uploader(1, [p1], [five2], 5, [r1]);
    assert Run(t, 10, c3 + [None]) == AddStep(t, 10, s3, None) by {
      ScenarioAfterFive2(t, ten, five1, five2);
      RunSnoc(t, 10, c3, None);
    }
    assert c3 + [None] == [Some(ten), Some(five1), Some(five2), None];
    ScenarioStepNone(t, ten, five1, five2);
  }

  /** What a future's `result()` yields: the `upload_part` response's ETag, or
      the exception the upload raised. */
  datatype UploadOutcome = Uploaded(eTag: string) | Raised(error: string)

  /** One entry of the list `complete_multipart_upload` needs. */
  datatype CompletedPart = CompletedPart(partNumber: nat, eTag: string)

  /** `get_parts`: one `{PartNumber, ETag}` entry per element of `parts`, in the
      same order; the futures are resolved in that order, so the first one that
      raised is the error that surfaces. */
  function GetParts(parts: seq<PartHandle>, outcome: Future -> UploadOutcome): (r: Result<seq<CompletedPart>>)
    ensures r.Ok? <==> forall i | 0 <= i < |parts| :: outcome(parts[i].future).Uploaded?
    ensures r.Ok? ==> (|r.value| == |parts| &&
      forall i | 0 <= i < |parts| ::
        r.value[i].partNumber == parts[i].partNumber && outcome(parts[i].future) == Uploaded(r.value[i].eTag))
    ensures r.Err? ==> exists i | 0 <= i < |parts| ::
      && outcome(parts[i].future) == Raised(r.error)
      && forall j | 0 <= j < i :: outcome(parts[j].future).Uploaded?
    decreases |parts|
  {
    if parts == [] then Ok([])
    else
      match outcome(parts[0].future)
      case Raised(e) => Err(e)
      case Uploaded(tag) =>
        var rest := GetParts(parts[1..], outcome);
        if rest.Err? then
          assert forall i | 1 <= i < |parts| :: parts[i] == parts[1..][i - 1];
          rest
        else
          Ok([CompletedPart(parts[0].partNumber, tag)] + rest.value)
  }

  /** The list handed to `complete_multipart_upload` after any run of `add`
      numbers its parts 1..N in ascending order, each with its own task's ETag. */
  lemma GetPartsOfRun(t: Target, minPartSize: nat, chunks: seq<Option<Bytes>>, outcome: Future -> UploadOutcome)
    ensures var s := Run(t, minPartSize, chunks);
      var r := GetParts(s.parts, outcome);
      r.Ok? ==> (|r.value| == |s.submitted| &&
        forall i | 0 <= i < |r.value| ::
          && r.value[i].partNumber == i + 1
          && r.value[i].partNumber == s.submitted[i].partNumber
          && outcome(Future(i)) == Uploaded(r.value[i].eTag))
  {
    RunInv(t, minPartSize, chunks);
  }

  /** `file_complete`: after every chunk has been given to `add`, one `add(None)`
      and then `get_parts`. A successful `get_parts` lists at least one part,
      numbered 1..N in order, each entry carrying the ETag of its own
      `upload_part` task, and those parts' bodies joined in order are exactly
      the data of the file. */
  lemma FileCompleteParts(t: Target, minPartSize: nat, chunks: seq<Option<Bytes>>, outcome: Future -> UploadOutcome)
    ensures var s := Run(t, minPartSize, chunks + [None]);
      var r := GetParts(s.parts, outcome);
      && Concat(Bodies(s.submitted)) == Concat(Payloads(chunks))
      && (r.Ok? ==> (|r.value| == |s.submitted| >= 1 &&
        forall i | 0 <= i < |r.value| ::
          && r.value[i].partNumber == i + 1
          && s.submitted[i].partNumber == i + 1
          && outcome(Future(i)) == Uploaded(r.value[i].eTag)))
  {
    GetPartsOfRun(t, minPartSize, chunks + [None], outcome);
    EndOfStreamDrains(t, minPartSize, chunks);
    EndOfStreamRoundTrip(t, minPartSize, chunks);
  }

  /** The uploader object: the fields `__init__` sets, and the log of calls submitted to the pool
      that `submit` appends to. `added` records every argument given to `add`. */
  class ThreadedS3ChunkUploader {
    const bucket: string
    const key: string
    const uploadId: string
    const maxWorkers: nat
    const minPartSize: nat
    var partNumber: nat
    var parts: seq<PartHandle>
    var queue: seq<Bytes>
    var currentQueueSize: nat
    var submitted: seq<UploadPartRequest>
    ghost var added: seq<Option<Bytes>>

    function UploadTarget(): Target
    {
      Target(bucket, key, uploadId)
    }

    function State(): Uploader
      reads this
    {
      Uploader(partNumber, parts, queue, currentQueueSize, submitted)
    }

    /** The object is in the state that the calls to `add` so far produce. */
    ghost predicate Valid()
      reads this
    {
      State() == Run(UploadTarget(), minPartSize, added)
    }

    /** `max_workers or 10`: a missing or zero worker count means ten workers. */
    constructor (bucket: string, key: string, uploadId: string, maxWorkers: Option<nat>, minPartSize: nat)
      ensures this.bucket == bucket && this.key == key && this.uploadId == uploadId
      ensures this.minPartSize == minPartSize
      ensures this.maxWorkers == if maxWorkers.None? || maxWorkers.value == 0 then 10 else maxWorkers.value
      ensures this.maxWorkers >= 1
      ensures Valid() && added == [] && State() == Initial
    {
      this.maxWorkers := if maxWorkers.None? || maxWorkers.value == 0 then 10 else maxWorkers.value;
      this.bucket := bucket;
      this.key := key;
      this.uploadId := uploadId;
      this.minPartSize := minPartSize;
      partNumber := 0;
      parts := [];
      queue := [];
      currentQueueSize := 0;
      submitted := [];
      added := [];
    }

    /** Queue a chunk; cut and submit a part when the chunk is falsy or the
        queued size strictly exceeds the minimum part size. */
    method Add(body: Option<Bytes>)
      requires Valid()
      modifies this
      ensures Valid() && added == old(added) + [body]
      ensures State() == AddStep(UploadTarget(), minPartSize, old(State()), body)
      ensures Inv(UploadTarget(), minPartSize, State())
    {
      ghost var before := State();
      EnqueueChunk(body);
      ghost var enqueued := State();
      assert enqueued == Enqueue(before, body);
      if !IsData(body) || currentQueueSize > minPartSize {
        SubmitPart();
      }
      assert State() == AddStep(UploadTarget(), minPartSize, before, body);
      RunSnoc(UploadTarget(), minPartSize, added, body);
      RunInv(UploadTarget(), minPartSize, added + [body]);
      added := added + [body];
    }

    /** The first half of `add`: a truthy chunk is appended to the queue and its
        length added to the running size. */
    method EnqueueChunk(body: Option<Bytes>)
      modifies this`queue, this`currentQueueSize
      ensures queue == old(queue) + (if IsData(body) then [body.value] else [])
      ensures currentQueueSize == old(currentQueueSize) + |Data(body)|
    {
      if IsData(body) {
        queue := queue + [body.value];
        currentQueueSize := currentQueueSize + |body.value|;
      }
    }

    /** The second half of `add`: bump the part number, drain the queue, submit
        the `upload_part` call to the pool and record `(part_number, future)`. */
    method SubmitPart()
      modifies this`partNumber, this`parts, this`queue, this`currentQueueSize, this`submitted
      ensures State() == CutPart(UploadTarget(), old(State()))
    {
      partNumber := partNumber + 1;
      var part := DrainQueue();
      var future := Submit(UploadPartRequest(bucket, key, partNumber, uploadId, part, |part|));
      parts := parts + [PartHandle(partNumber, future)];
    }

    /** Join the queued chunks into one body and empty the queue. */
    method DrainQueue() returns (body: Bytes)
      modifies this`queue, this`currentQueueSize
      ensures body == Concat(old(queue)) && |body| == TotalSize(old(queue))
      ensures queue == [] && currentQueueSize == 0
    {
      body := Concat(queue);
      queue := [];
      currentQueueSize := 0;
    }

    /** The pool's `submit`: enqueue the task and return its future. */
    method Submit(request: UploadPartRequest) returns (future: Future)
      modifies this`submitted
      ensures submitted == old(submitted) + [request]
      ensures future == Future(|old(submitted)|)
    {
      future := Future(|submitted|);
      submitted := submitted + [request];
    }
  }
}
