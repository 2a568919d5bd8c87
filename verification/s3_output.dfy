/**
  The `OutputPlugin` of s3/s3.go: one in-memory byte buffer of framed JSON
  lines per plugin instance, a size check before every append, and a flush
  that names one object, optionally gzips the buffer and uploads it with one
  `PutObject`, emptying the buffer only when the upload succeeded.

  The collaborators the plugin cannot see are inputs. The record encoder
  (`plugins.DecodeMap` then `jsoniter.Marshal`) and the gzip writer are the
  function values of `Codecs`; the clock, the random source and the answer of
  the storage service to one upload are the fields of `Env`; the S3 client is
  a class that keeps the list of every `PutObject` call made through it.
*/
module S3Output {
  import opened Wrappers
  import opened Format
  import Uuid
  import opened ObjectKeys

  /** `maximumObjectSize`: 5 MiB. */
  const MaximumObjectSize := 1024 * 1024 * 5

  /** The canned ACL every object is uploaded with. */
  const CannedAcl := "bucket-owner-full-control"

  const NewLine: bv8 := 10

  /** Fluent Bit's output return codes, FLB_ERROR = 0, FLB_OK = 1 and FLB_RETRY = 2. */
  datatype Status = FlbError | FlbOk | FlbRetry

  /** A value of a decoded record: text, raw bytes, scalars, or nested arrays and maps. */
  datatype Value =
    | Str(text: string)
    | Bytes(raw: seq<bv8>)
    | Int(number: int)
    | Float(approx: real)
    | Bool(flag: bool)
    | Nil
    | Array(items: seq<Value>)
    | Map(entries: seq<(Value, Value)>)

  /** One record as the host decoder delivers it: its key/value pairs. */
  type Record = seq<(Value, Value)>

  /**
    The foreign libraries: `marshal` stands for `plugins.DecodeMap` followed by
    `jsoniter.Marshal` (None when either reports an error); `compress` stands
    for a gzip stream whose header carries the given file name.
  */
  datatype Codecs = Codecs(marshal: Record -> Option<seq<bv8>>, compress: (string, seq<bv8>) -> seq<bv8>)

  /** The configuration one instance keeps for its lifetime. */
  datatype Target = Target(region: string, bucket: string, prefix: string, gzip: bool, pluginId: int)

  /** What the outside world answers during one flush: the clock, the random source, and whether PutObject succeeds. */
  datatype Env = Env(now: Clock, random: Option<seq<bv8>>, putSucceeds: bool)

  datatype RecordError = EncodeFailed

  datatype PutObjectError = RequestFailed

  datatype PutObjectInput = PutObjectInput(bucket: string, key: string, acl: string, body: seq<bv8>, contentLength: int)

  /** One request sent to the storage service, with whether it was stored. */
  datatype PutObjectCall = PutObjectCall(input: PutObjectInput, succeeded: bool)

  /** The observable state of one instance: its buffer and the uploads attempted so far. */
  datatype Snapshot = Snapshot(logs: seq<bv8>, calls: seq<PutObjectCall>)

  // ---------------------------------------------------------------------
  // Pure parts: record framing, log text, the upload request
  // ---------------------------------------------------------------------

  /** `processRecord`: the encoded record followed by exactly one newline, or the encoder's error. */
  function ProcessRecord(codecs: Codecs, rec: Record): (r: Result<seq<bv8>, RecordError>)
    ensures r.Success? <==> codecs.marshal(rec).Some?
  {
    match codecs.marshal(rec)
    case None => Failure(EncodeFailed)
    case Some(data) => Success(data + [NewLine])
  }

  /** A framed record ends in its only added byte, a newline, and what precedes it is the encoder's output. */
  lemma ProcessRecordFrames(codecs: Codecs, rec: Record)
    requires ProcessRecord(codecs, rec).Success?
    ensures var line := ProcessRecord(codecs, rec).value;
      |line| == |codecs.marshal(rec).value| + 1 && line[|line| - 1] == NewLine
      && line[..|line| - 1] == codecs.marshal(rec).value
  {
  }

  /**
    `logString`: the record with leading and trailing white space removed. A Go
    string is a sequence of bytes, so the result is kept as bytes.
  */
  function LogString(record: seq<bv8>): (s: seq<bv8>)
    ensures |s| <= |record|
    ensures s == [] || (!IsSpace(s[0]) && !IsSpace(s[|s| - 1]))
  {
    TrimSpace(record)
  }

  /** LogString keeps exactly the run of bytes between the leading and the trailing white space. */
  lemma LogStringTrims(record: seq<bv8>)
    ensures var s := LogString(record);
      exists lead :: 0 <= lead <= |record| - |s| && s == record[lead..lead + |s|] &&
        AllSpace(record[..lead]) && AllSpace(record[lead + |s|..])
    ensures LogString(record) == [] <==> AllSpace(record)
  {
    TrimSpaceRun(record);
    TrimSpaceEmpty(record);
  }

  /** The one `PutObject` request a flush of `logs` issues. */
  function PutObjectRequest(t: Target, codecs: Codecs, logs: seq<bv8>, tag: string, env: Env): (p: PutObjectInput)
    ensures p.bucket == t.bucket && p.acl == CannedAcl
    ensures p.key == ObjectKey(t.prefix, tag, env.now, Uuid.FromRandom(env.random), t.gzip)
    ensures p.contentLength == |p.body|
    ensures !t.gzip ==> p.body == logs
    ensures t.gzip ==> p.body == codecs.compress(KeyName(tag, env.now, Uuid.FromRandom(env.random)) + ".log", logs)
  {
    var uuid := Uuid.FromRandom(env.random);
    var keyname := KeyName(tag, env.now, uuid);
    var body := if t.gzip then codecs.compress(keyname + ".log", logs) else logs;
    PutObjectInput(t.bucket, ObjectKey(t.prefix, tag, env.now, uuid, t.gzip), CannedAcl, body, |body|)
  }

  // ---------------------------------------------------------------------
  // The state changes, as functions on Snapshot
  // ---------------------------------------------------------------------

  /** `sendCurrentLogs`: one upload of the whole buffer; the buffer is emptied only if it succeeded. */
  function SendStep(t: Target, codecs: Codecs, s: Snapshot, tag: string, env: Env): Snapshot
  {
    Snapshot(if env.putSucceeds then [] else s.logs,
             s.calls + [PutObjectCall(PutObjectRequest(t, codecs, s.logs, tag, env), env.putSucceeds)])
  }

  /** `AddRecord`: drop a record that does not encode; otherwise flush first if the append would pass 5 MiB, then append. */
  function AddRecordStep(t: Target, codecs: Codecs, s: Snapshot, rec: Record, tag: string, env: Env): Snapshot
  {
    match ProcessRecord(codecs, rec)
    case Failure(_) => s
    case Success(data) =>
      var flushed := if |s.logs| + |data| > MaximumObjectSize then SendStep(t, codecs, s, tag, env) else s;
      flushed.(logs := flushed.logs + data)
  }

  // ---------------------------------------------------------------------
  // The storage client and the plugin object
  // ---------------------------------------------------------------------

  /** The S3 client of one instance; `calls` is every PutObject request it has sent. */
  class S3Client {
    const region: string
    var calls: seq<PutObjectCall>

    constructor (region: string)
      ensures this.region == region && calls == []
    {
      this.region := region;
      calls := [];
    }

    /** Sends one request; `accepted` is the service's answer. */
    method PutObject(input: PutObjectInput, accepted: bool) returns (err: Option<PutObjectError>)
      modifies this
      ensures calls == old(calls) + [PutObjectCall(input, accepted)]
      ensures err.None? <==> accepted
    {
      calls := calls + [PutObjectCall(input, accepted)];
      err := if accepted then None else Some(RequestFailed);
    }
  }

  class OutputPlugin {
    const region: string
    const bucket: string
    const prefix: string
    const gzip: bool
    const pluginId: int
    const client: S3Client
    const codecs: Codecs
    var logs: seq<bv8>

    function Config(): Target
    {
      Target(region, bucket, prefix, gzip, pluginId)
    }

    function State(): Snapshot
      reads this, client
    {
      Snapshot(logs, client.calls)
    }

    /** `NewOutputPlugin`: an empty buffer and a fresh client for the region. */
    constructor (region: string, bucket: string, prefix: string, gzip: bool, pluginId: int, codecs: Codecs)
      ensures Config() == Target(region, bucket, prefix, gzip, pluginId) && this.codecs == codecs
      ensures fresh(client) && client.region == region
      ensures State() == Snapshot([], [])
    {
      this.region := region;
      this.bucket := bucket;
      this.prefix := prefix;
      this.gzip := gzip;
      this.pluginId := pluginId;
      this.codecs := codecs;
      client := new S3Client(region);
      logs := [];
    }

    method AddRecord(rec: Record, tag: string, env: Env) returns (ret: Status)
      modifies this, client
      ensures ret == FlbOk
      ensures State() == AddRecordStep(Config(), codecs, old(State()), rec, tag, env)
      ensures ProcessRecord(codecs, rec).Failure? ==> logs == old(logs) && client.calls == old(client.calls)
      ensures ProcessRecord(codecs, rec).Success? ==>
        var data := ProcessRecord(codecs, rec).value;
        if |old(logs)| + |data| > MaximumObjectSize then
          && client.calls == old(client.calls)
               + [PutObjectCall(PutObjectRequest(Config(), codecs, old(logs), tag, env), env.putSucceeds)]
          && logs == (if env.putSucceeds then data else old(logs) + data)
        else
          client.calls == old(client.calls) && logs == old(logs) + data
    {
      var processed := ProcessRecord(codecs, rec);
      if processed.Failure? {
        // the bad record is discarded and the batch goes on
        return FlbOk;
      }
      var data := processed.value;
      if |logs| + |data| > MaximumObjectSize {
        // the outcome of this flush is ignored
        var _ := SendCurrentLogs(tag, env);
      }
      logs := logs + data;
      return FlbOk;
    }

    method SendCurrentLogs(tag: string, env: Env) returns (err: Option<PutObjectError>)
      modifies this, client
      ensures State() == SendStep(Config(), codecs, old(State()), tag, env)
      ensures client.calls == old(client.calls)
        + [PutObjectCall(PutObjectRequest(Config(), codecs, old(logs), tag, env), env.putSucceeds)]
      ensures err.None? <==> env.putSucceeds
      ensures logs == if env.putSucceeds then [] else old(logs)
    {
      var now := env.now;
      var datePath := DatePath(prefix, now);
      var keyname := IntToDecimal(now.unixSeconds);
      var uuid := Uuid.NewUuid(env.random);
      if uuid.Success? {
        if tag != "" {
          keyname := tag + "-" + MinuteStamp(now) + "-" + uuid.value;
        } else {
          keyname := MinuteStamp(now) + "-" + uuid.value;
        }
      }
      assert keyname == KeyName(tag, now, uuid);
      var ext := if gzip then ".gz" else ".log";
      var objectKey := datePath + "/" + keyname + ext;
      var body, dataLength;
      if gzip {
        body := codecs.compress(keyname + ".log", logs);
        dataLength := |body|;
      } else {
        body := logs;
        dataLength := |logs|;
      }
      var params := PutObjectInput(bucket, objectKey, CannedAcl, body, dataLength);
      err := client.PutObject(params, env.putSucceeds);
      if err.Some? {
        return;
      }
      logs := [];
    }

    method Flush(tag: string, env: Env) returns (err: Option<PutObjectError>)
      modifies this, client
      ensures State() == SendStep(Config(), codecs, old(State()), tag, env)
      ensures err.None? <==> env.putSucceeds
    {
      err := SendCurrentLogs(tag, env);
    }
  }
}
