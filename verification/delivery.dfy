/**
  What the buffering and flush policy guarantees about the data, stated on the
  step functions of S3Output and FluentBitS3: every encoded byte is either in
  an accepted upload or still in the buffer, in upload order, the buffer stays within 5 MiB while uploads succeed and no single
  record is larger, each record causes at most one upload and each batch ends
  with exactly one, and two concrete batches behave as the design describes.
*/
module Delivery {
  import opened Wrappers
  import opened ObjectKeys
  import opened S3Output
  import opened FluentBitS3

  /** The uncompressed bytes an upload carries; `unzip` reads a gzip stream back. */
  function Payload(gzip: bool, unzip: seq<bv8> -> seq<bv8>, call: PutObjectCall): seq<bv8>
  {
    if gzip then unzip(call.input.body) else call.input.body
  }

  /**
    The payloads of the uploads the storage service accepted, in upload order.
    This is not the bucket's contents: a later upload to the same key replaces
    the earlier object, and the bucket lists objects by key, not by upload.
  */
  function Stored(gzip: bool, unzip: seq<bv8> -> seq<bv8>, calls: seq<PutObjectCall>): seq<bv8>
  {
    if calls == [] then []
    else
      var last := calls[|calls| - 1];
      Stored(gzip, unzip, calls[..|calls| - 1]) + (if last.succeeded then Payload(gzip, unzip, last) else [])
  }

  /** The framed lines of the records that encode, in order; records that fail to encode contribute nothing. */
  function Framed(codecs: Codecs, records: seq<Record>): seq<bv8>
  {
    if records == [] then []
    else
      var last := records[|records| - 1];
      Framed(codecs, records[..|records| - 1])
        + (match ProcessRecord(codecs, last) case Success(line) => line case Failure(_) => [])
  }

  /** `unzip` undoes the gzip writer whenever compression is on. */
  ghost predicate Lossless(t: Target, codecs: Codecs, unzip: seq<bv8> -> seq<bv8>)
  {
    t.gzip ==> forall name, data :: unzip(codecs.compress(name, data)) == data
  }

  lemma StoredAppend(gzip: bool, unzip: seq<bv8> -> seq<bv8>, calls: seq<PutObjectCall>, call: PutObjectCall)
    ensures Stored(gzip, unzip, calls + [call])
         == Stored(gzip, unzip, calls) + (if call.succeeded then Payload(gzip, unzip, call) else [])
  {
    assert (calls + [call])[..|calls|] == calls;
  }

  /** A flush moves the buffer into storage or leaves it in place: nothing is lost either way. */
  lemma SendStepConserves(t: Target, codecs: Codecs, unzip: seq<bv8> -> seq<bv8>, s: Snapshot, tag: string, env: Env)
    requires Lossless(t, codecs, unzip)
    ensures var after := SendStep(t, codecs, s, tag, env);
      Stored(t.gzip, unzip, after.calls) + after.logs == Stored(t.gzip, unzip, s.calls) + s.logs
  {
    var req := PutObjectRequest(t, codecs, s.logs, tag, env);
    var call := PutObjectCall(req, env.putSucceeds);
    var after := SendStep(t, codecs, s, tag, env);
    assert after.calls == s.calls + [call];
    StoredAppend(t.gzip, unzip, s.calls, call);
    PayloadOfRequest(t, codecs, unzip, s.logs, tag, env);
    if env.putSucceeds {
      assert after.logs == [];
      assert Stored(t.gzip, unzip, after.calls) == Stored(t.gzip, unzip, s.calls) + s.logs;
    } else {
      assert after.logs == s.logs;
      assert Stored(t.gzip, unzip, after.calls) == Stored(t.gzip, unzip, s.calls);
    }
  }

  /** With a lossless compressor, the uncompressed payload of a flush request is the buffer it was built from. */
  lemma PayloadOfRequest(t: Target, codecs: Codecs, unzip: seq<bv8> -> seq<bv8>, logs: seq<bv8>, tag: string, env: Env)
    requires Lossless(t, codecs, unzip)
    ensures Payload(t.gzip, unzip, PutObjectCall(PutObjectRequest(t, codecs, logs, tag, env), env.putSucceeds)) == logs
  {
    if t.gzip {
      var name := KeyName(tag, env.now, Uuid.FromRandom(env.random)) + ".log";
      assert unzip(codecs.compress(name, logs)) == logs;
    }
  }

  lemma FramedOne(codecs: Codecs, rec: Record)
    ensures Framed(codecs, [rec]) == match ProcessRecord(codecs, rec) case Success(line) => line case Failure(_) => []
  {
    assert [rec][..0] == [];
  }

  lemma FramedLast(codecs: Codecs, records: seq<Record>)
    requires records != []
    ensures Framed(codecs, records) == Framed(codecs, records[..|records| - 1]) + Framed(codecs, [records[|records| - 1]])
  {
    FramedOne(codecs, records[|records| - 1]);
  }

  lemma AppendKeepsBalance(gzip: bool, unzip: seq<bv8> -> seq<bv8>, s: Snapshot, flushed: Snapshot, data: seq<bv8>)
    requires Stored(gzip, unzip, flushed.calls) + flushed.logs == Stored(gzip, unzip, s.calls) + s.logs
    ensures Stored(gzip, unzip, flushed.calls) + (flushed.logs + data) == Stored(gzip, unzip, s.calls) + s.logs + data
  {
  }

  /** AddRecord adds exactly the record's framed line to what is stored or buffered. */
  lemma AddRecordStepConserves(t: Target, codecs: Codecs, unzip: seq<bv8> -> seq<bv8>, s: Snapshot, rec: Record, tag: string, env: Env)
    requires Lossless(t, codecs, unzip)
    ensures var after := AddRecordStep(t, codecs, s, rec, tag, env);
      Stored(t.gzip, unzip, after.calls) + after.logs == Stored(t.gzip, unzip, s.calls) + s.logs + Framed(codecs, [rec])
  {
    FramedOne(codecs, rec);
    var r := ProcessRecord(codecs, rec);
    if r.Success? {
      var data := r.value;
      var flushed := if |s.logs| + |data| > MaximumObjectSize then SendStep(t, codecs, s, tag, env) else s;
      if |s.logs| + |data| > MaximumObjectSize {
        SendStepConserves(t, codecs, unzip, s, tag, env);
      }
      AppendKeepsBalance(t.gzip, unzip, s, flushed, data);
    }
  }

  lemma {:induction false} AddRecordsConserve(t: Target, codecs: Codecs, unzip: seq<bv8> -> seq<bv8>, s: Snapshot, records: seq<Record>, tag: string, world: nat -> Env)
    requires Lossless(t, codecs, unzip)
    ensures var after := AddRecordsStep(t, codecs, s, records, tag, world);
      Stored(t.gzip, unzip, after.calls) + after.logs == Stored(t.gzip, unzip, s.calls) + s.logs + Framed(codecs, records)
  {
    if records != [] {
      var n := |records| - 1;
      var mid := AddRecordsStep(t, codecs, s, records[..n], tag, world);
      var after := AddRecordsStep(t, codecs, s, records, tag, world);
      assert after == AddRecordStep(t, codecs, mid, records[n], tag, world(n));
      AddRecordsConserve(t, codecs, unzip, s, records[..n], tag, world);
      AddRecordStepConserves(t, codecs, unzip, mid, records[n], tag, world(n));
      FramedLast(codecs, records);
      var before := Stored(t.gzip, unzip, s.calls) + s.logs;
      calc {
        Stored(t.gzip, unzip, after.calls) + after.logs;
        Stored(t.gzip, unzip, mid.calls) + mid.logs + Framed(codecs, [records[n]]);
        before + Framed(codecs, records[..n]) + Framed(codecs, [records[n]]);
        before + (Framed(codecs, records[..n]) + Framed(codecs, [records[n]]));
        before + Framed(codecs, records);
      }
    }
  }

  /**
    A batch keeps every encoded byte: what the accepted uploads carry plus what
    is buffered grows by exactly the framed records, in upload order; when the
    final flush succeeds the buffer is empty and the accepted uploads carry all of it.
  */
  lemma FlushCtxDelivers(t: Target, codecs: Codecs, unzip: seq<bv8> -> seq<bv8>, s: Snapshot, records: seq<Record>, tag: string, world: nat -> Env)
    requires Lossless(t, codecs, unzip)
    ensures var after := FlushCtxStep(t, codecs, s, records, tag, world);
      Stored(t.gzip, unzip, after.calls) + after.logs == Stored(t.gzip, unzip, s.calls) + s.logs + Framed(codecs, records)
    ensures world(|records|).putSucceeds ==>
      var after := FlushCtxStep(t, codecs, s, records, tag, world);
      after.logs == [] && Stored(t.gzip, unzip, after.calls) == Stored(t.gzip, unzip, s.calls) + s.logs + Framed(codecs, records)
  {
    var mid := AddRecordsStep(t, codecs, s, records, tag, world);
    AddRecordsConserve(t, codecs, unzip, s, records, tag, world);
    SendStepConserves(t, codecs, unzip, mid, tag, world(|records|));
    if world(|records|).putSucceeds {
      var after := FlushCtxStep(t, codecs, s, records, tag, world);
      assert Stored(t.gzip, unzip, after.calls) + after.logs == Stored(t.gzip, unzip, after.calls);
    }
  }

  /** No framed record is larger than an object may be. */
  ghost predicate RecordsFit(codecs: Codecs, records: seq<Record>)
  {
    forall i :: 0 <= i < |records| && ProcessRecord(codecs, records[i]).Success? ==>
      |ProcessRecord(codecs, records[i]).value| <= MaximumObjectSize
  }

  /** While every upload succeeds and no record alone exceeds 5 MiB, the buffer never exceeds 5 MiB. */
  lemma {:induction false} AddRecordsWithinCap(t: Target, codecs: Codecs, s: Snapshot, records: seq<Record>, tag: string, world: nat -> Env)
    requires |s.logs| <= MaximumObjectSize
    requires RecordsFit(codecs, records)
    requires forall i :: 0 <= i < |records| ==> world(i).putSucceeds
    ensures |AddRecordsStep(t, codecs, s, records, tag, world).logs| <= MaximumObjectSize
  {
    if records != [] {
      var n := |records| - 1;
      assert RecordsFit(codecs, records[..n]) by {
        forall i | 0 <= i < n && ProcessRecord(codecs, records[..n][i]).Success?
          ensures |ProcessRecord(codecs, records[..n][i]).value| <= MaximumObjectSize
        {
          assert records[..n][i] == records[i];
        }
      }
      AddRecordsWithinCap(t, codecs, s, records[..n], tag, world);
      assert world(n).putSucceeds;
    }
  }

  /** When the flush before an append fails, the append still happens and the buffer can pass 5 MiB. */
  lemma FailedFlushOverfillsBuffer(t: Target, codecs: Codecs, s: Snapshot, rec: Record, tag: string, env: Env)
    requires ProcessRecord(codecs, rec).Success?
    requires |s.logs| + |ProcessRecord(codecs, rec).value| > MaximumObjectSize
    requires !env.putSucceeds
    ensures var after := AddRecordStep(t, codecs, s, rec, tag, env);
      |after.logs| > MaximumObjectSize && after.logs == s.logs + ProcessRecord(codecs, rec).value
      && |after.calls| == |s.calls| + 1
  {
  }

  /** Earlier uploads are never rewritten, and a batch of n records makes at most n uploads before its flush. */
  lemma {:induction false} AddRecordsUploadCount(t: Target, codecs: Codecs, s: Snapshot, records: seq<Record>, tag: string, world: nat -> Env)
    ensures var after := AddRecordsStep(t, codecs, s, records, tag, world);
      |s.calls| <= |after.calls| <= |s.calls| + |records| && after.calls[..|s.calls|] == s.calls
  {
    if records != [] {
      var n := |records| - 1;
      AddRecordsUploadCount(t, codecs, s, records[..n], tag, world);
      var mid := AddRecordsStep(t, codecs, s, records[..n], tag, world);
      var after := AddRecordsStep(t, codecs, s, records, tag, world);
      assert after.calls[..|mid.calls|] == mid.calls;
      assert after.calls[..|s.calls|] == mid.calls[..|s.calls|];
    }
  }

  /** Every batch ends with exactly one more upload, of the buffer as the records left it, even when it has no records. */
  lemma FlushCtxFlushesOnce(t: Target, codecs: Codecs, s: Snapshot, records: seq<Record>, tag: string, world: nat -> Env)
    ensures var mid := AddRecordsStep(t, codecs, s, records, tag, world);
      var after := FlushCtxStep(t, codecs, s, records, tag, world);
      && |after.calls| == |mid.calls| + 1
      && after.calls[|mid.calls|].input == PutObjectRequest(t, codecs, mid.logs, tag, world(|records|))
      && |after.calls| >= |s.calls| + 1
  {
    AddRecordsUploadCount(t, codecs, s, records, tag, world);
  }

  /** A record whose line still fits is appended and nothing is uploaded. */
  lemma AddRecordFits(t: Target, codecs: Codecs, s: Snapshot, rec: Record, line: seq<bv8>, tag: string, env: Env)
    requires ProcessRecord(codecs, rec) == Success(line)
    requires |s.logs| + |line| <= MaximumObjectSize
    ensures AddRecordStep(t, codecs, s, rec, tag, env).logs == s.logs + line
    ensures AddRecordStep(t, codecs, s, rec, tag, env).calls == s.calls
  {
  }

  /**
    A record whose line would not fit first uploads the buffer as it is. Then the line is appended to
    what is left: the line alone after a successful upload, the old buffer plus the line after a failed one.
  */
  lemma AddRecordOverflows(t: Target, codecs: Codecs, unzip: seq<bv8> -> seq<bv8>, s: Snapshot, rec: Record, line: seq<bv8>, tag: string, env: Env)
    requires Lossless(t, codecs, unzip)
    requires ProcessRecord(codecs, rec) == Success(line)
    requires |s.logs| + |line| > MaximumObjectSize
    ensures var after := AddRecordStep(t, codecs, s, rec, tag, env);
      && |after.calls| == |s.calls| + 1 && after.calls[..|s.calls|] == s.calls
      && Payload(t.gzip, unzip, after.calls[|s.calls|]) == s.logs
      && after.calls[|s.calls|].succeeded == env.putSucceeds
      && after.logs == (if env.putSucceeds then line else s.logs + line)
  {
    PayloadOfRequest(t, codecs, unzip, s.logs, tag, env);
  }

  /** A flush appends one upload whose payload is the buffer, and keeps the buffer only if the upload failed. */
  lemma FlushUploadsBuffer(t: Target, codecs: Codecs, unzip: seq<bv8> -> seq<bv8>, s: Snapshot, tag: string, env: Env)
    requires Lossless(t, codecs, unzip)
    ensures var after := SendStep(t, codecs, s, tag, env);
      && |after.calls| == |s.calls| + 1 && after.calls[..|s.calls|] == s.calls
      && Payload(t.gzip, unzip, after.calls[|s.calls|]) == s.logs
      && after.calls[|s.calls|].succeeded == env.putSucceeds
      && after.logs == (if env.putSucceeds then [] else s.logs)
  {
    PayloadOfRequest(t, codecs, unzip, s.logs, tag, env);
  }

  lemma BatchOfOne(t: Target, codecs: Codecs, s: Snapshot, rec: Record, tag: string, world: nat -> Env)
    ensures AddRecordsStep(t, codecs, s, [rec], tag, world) == AddRecordStep(t, codecs, s, rec, tag, world(0))
  {
    assert [rec][..0] == [];
  }

  lemma BatchOfTwo(t: Target, codecs: Codecs, s: Snapshot, r1: Record, r2: Record, tag: string, world: nat -> Env)
    ensures AddRecordsStep(t, codecs, s, [r1, r2], tag, world)
         == AddRecordStep(t, codecs, AddRecordStep(t, codecs, s, r1, tag, world(0)), r2, tag, world(1))
  {
    var batch := [r1, r2];
    assert batch[..1] == [r1];
    calc {
      AddRecordsStep(t, codecs, s, batch, tag, world);
      AddRecordStep(t, codecs, AddRecordsStep(t, codecs, s, batch[..1], tag, world), batch[1], tag, world(1));
      { BatchOfOne(t, codecs, s, r1, tag, world); }
      AddRecordStep(t, codecs, AddRecordStep(t, codecs, s, r1, tag, world(0)), r2, tag, world(1));
    }
  }

  lemma FlushOfTwo(t: Target, codecs: Codecs, s: Snapshot, r1: Record, r2: Record, tag: string, world: nat -> Env)
    ensures FlushCtxStep(t, codecs, s, [r1, r2], tag, world)
         == SendStep(t, codecs, AddRecordStep(t, codecs, AddRecordStep(t, codecs, s, r1, tag, world(0)), r2, tag, world(1)), tag, world(2))
  {
    BatchOfTwo(t, codecs, s, r1, r2, tag, world);
    assert |[r1, r2]| == 2;
  }

  /** One small record, no compression: one upload, a `.log` key, and the body is the JSON line. */
  lemma SingleRecordScenario(t: Target, codecs: Codecs, rec: Record, line: seq<bv8>, tag: string, world: nat -> Env)
    requires !t.gzip
    requires codecs.marshal(rec) == Some(line)
    requires |line| + 1 <= MaximumObjectSize
    ensures var after := FlushCtxStep(t, codecs, Snapshot([], []), [rec], tag, world);
      && |after.calls| == 1
      && after.calls[0].input.body == line + [NewLine]
      && after.calls[0].input.contentLength == |line| + 1
      && after.calls[0].input.acl == CannedAcl && after.calls[0].input.bucket == t.bucket
      && EndsWith(after.calls[0].input.key, ".log")
  {
    var empty := Snapshot([], []);
    BatchOfOne(t, codecs, empty, rec, tag, world);
    AddRecordFits(t, codecs, empty, rec, line + [NewLine], tag, world(0));
    var buffered := AddRecordsStep(t, codecs, empty, [rec], tag, world);
    var req := PutObjectRequest(t, codecs, buffered.logs, tag, world(1));
    assert FlushCtxStep(t, codecs, empty, [rec], tag, world).calls[0].input == req;
    ObjectKeyExtension(t.prefix, tag, world(1).now, Uuid.FromRandom(world(1).random), t.gzip);
  }

  /**
    Two records that together exceed 5 MiB: the second append uploads the
    first record's line alone, and the end of the batch uploads the rest —
    the second line when that first upload succeeded, both lines when it failed.
  */
  lemma TwoLargeRecordsScenario(t: Target, codecs: Codecs, unzip: seq<bv8> -> seq<bv8>, r1: Record, r2: Record, d1: seq<bv8>, d2: seq<bv8>, tag: string, world: nat -> Env)
    requires Lossless(t, codecs, unzip)
    requires codecs.marshal(r1) == Some(d1) && codecs.marshal(r2) == Some(d2)
    requires |d1| + 1 <= MaximumObjectSize && |d1| + |d2| + 2 > MaximumObjectSize
    ensures var after := FlushCtxStep(t, codecs, Snapshot([], []), [r1, r2], tag, world);
      && |after.calls| == 2
      && Payload(t.gzip, unzip, after.calls[0]) == d1 + [NewLine]
      && after.calls[0].succeeded == world(1).putSucceeds
      && Payload(t.gzip, unzip, after.calls[1])
         == (if world(1).putSucceeds then d2 + [NewLine] else d1 + [NewLine] + d2 + [NewLine])
  {
    var empty := Snapshot([], []);
    var second := AddRecordStep(t, codecs, AddRecordStep(t, codecs, empty, r1, tag, world(0)), r2, tag, world(1));
    TwoLargeRecordsBuffered(t, codecs, unzip, r1, r2, d1, d2, tag, world);
    FlushUploadsBuffer(t, codecs, unzip, second, tag, world(2));
    FlushOfTwo(t, codecs, empty, r1, r2, tag, world);
    UploadsAfterTwo(t.gzip, unzip, second, FlushCtxStep(t, codecs, empty, [r1, r2], tag, world),
                    d1 + [NewLine], d2 + [NewLine], world(1).putSucceeds);
  }

  /** The state of the two-record batch before its final flush. */
  lemma TwoLargeRecordsBuffered(t: Target, codecs: Codecs, unzip: seq<bv8> -> seq<bv8>, r1: Record, r2: Record, d1: seq<bv8>, d2: seq<bv8>, tag: string, world: nat -> Env)
    requires Lossless(t, codecs, unzip)
    requires codecs.marshal(r1) == Some(d1) && codecs.marshal(r2) == Some(d2)
    requires |d1| + 1 <= MaximumObjectSize && |d1| + |d2| + 2 > MaximumObjectSize
    ensures var second := AddRecordStep(t, codecs, AddRecordStep(t, codecs, Snapshot([], []), r1, tag, world(0)), r2, tag, world(1));
      && |second.calls| == 1 && Payload(t.gzip, unzip, second.calls[0]) == d1 + [NewLine]
      && second.calls[0].succeeded == world(1).putSucceeds
      && second.logs == (if world(1).putSucceeds then d2 + [NewLine] else d1 + [NewLine] + d2 + [NewLine])
  {
    var empty := Snapshot([], []);
    AddRecordFits(t, codecs, empty, r1, d1 + [NewLine], tag, world(0));
    assert AddRecordStep(t, codecs, empty, r1, tag, world(0)) == Snapshot(d1 + [NewLine], []);
    AddRecordOverflows(t, codecs, unzip, Snapshot(d1 + [NewLine], []), r2, d2 + [NewLine], tag, world(1));
  }

  lemma UploadsAfterTwo(gzip: bool, unzip: seq<bv8> -> seq<bv8>, second: Snapshot, after: Snapshot, line1: seq<bv8>, line2: seq<bv8>, ok: bool)
    requires |second.calls| == 1 && Payload(gzip, unzip, second.calls[0]) == line1 && second.calls[0].succeeded == ok
    requires second.logs == (if ok then line2 else line1 + line2)
    requires |after.calls| == 2 && after.calls[..1] == second.calls && Payload(gzip, unzip, after.calls[1]) == second.logs
    ensures Payload(gzip, unzip, after.calls[0]) == line1 && after.calls[0].succeeded == ok
    ensures Payload(gzip, unzip, after.calls[1]) == if ok then line2 else line1 + line2
  {
    assert after.calls[0] == after.calls[..1][0];
  }
}
