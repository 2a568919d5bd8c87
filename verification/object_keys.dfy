/**
  Object-key naming of `sendCurrentLogs` in s3/s3.go:
  `{prefix}/{year}/{month}/{day}/{hour}/{keyname}{ext}` where the key name is
  `{tag}-{year}-{month}-{day}-{hour}-{minute}-{uuid}` (the tag and its dash
  are dropped for an empty tag), or the decimal Unix time when no UUID could
  be generated, and the extension is `.gz` or `.log`. The clock reading is an
  input.
*/
module ObjectKeys {
  import opened Wrappers
  import opened Format
  import Uuid

  /** One reading of `time.Now()`: the calendar fields and the Unix time in seconds. */
  datatype Clock = Clock(year: int, month: int, day: int, hour: int, minute: int, unixSeconds: int)

  predicate EndsWith(s: string, suffix: string)
  {
    |suffix| <= |s| && s[|s| - |suffix|..] == suffix
  }

  predicate StartsWith(s: string, head: string)
  {
    |head| <= |s| && s[..|head|] == head
  }

  /** The directory part, `{prefix}/{year}/{month}/{day}/{hour}`, every number unpadded. */
  function DatePath(prefix: string, now: Clock): string
  {
    prefix + "/" + IntToDecimal(now.year) + "/" + IntToDecimal(now.month) + "/"
      + IntToDecimal(now.day) + "/" + IntToDecimal(now.hour)
  }

  /** `{year}-{month}-{day}-{hour}-{minute}`, the time part of a key name. */
  function MinuteStamp(now: Clock): string
  {
    IntToDecimal(now.year) + "-" + IntToDecimal(now.month) + "-" + IntToDecimal(now.day) + "-"
      + IntToDecimal(now.hour) + "-" + IntToDecimal(now.minute)
  }

  function KeyName(tag: string, now: Clock, uuid: Result<string, Uuid.RandomError>): string
  {
    match uuid
    case Failure(_) => IntToDecimal(now.unixSeconds)
    case Success(id) =>
      if tag != "" then tag + "-" + MinuteStamp(now) + "-" + id
      else MinuteStamp(now) + "-" + id
  }

  function Extension(gzip: bool): string
  {
    if gzip then ".gz" else ".log"
  }

  function ObjectKey(prefix: string, tag: string, now: Clock, uuid: Result<string, Uuid.RandomError>, gzip: bool): string
  {
    DatePath(prefix, now) + "/" + KeyName(tag, now, uuid) + Extension(gzip)
  }

  /** The key ends in `.gz` exactly when compression is on, and in `.log` exactly when it is off. */
  lemma ObjectKeyExtension(prefix: string, tag: string, now: Clock, uuid: Result<string, Uuid.RandomError>, gzip: bool)
    ensures EndsWith(ObjectKey(prefix, tag, now, uuid, gzip), ".gz") <==> gzip
    ensures EndsWith(ObjectKey(prefix, tag, now, uuid, gzip), ".log") <==> !gzip
  {
    var key := ObjectKey(prefix, tag, now, uuid, gzip);
    var body := DatePath(prefix, now) + "/" + KeyName(tag, now, uuid);
    assert key == body + Extension(gzip);
    if gzip {
      assert key[|key| - 3..] == ".gz";
      assert key[|key| - 1] == 'z';
    } else {
      assert key[|key| - 4..] == ".log";
      assert key[|key| - 1] == 'g' && key[|key| - 2] == 'o';
    }
  }

  /** The three forms of the key name: tagged, untagged, and the Unix-time fallback. */
  lemma KeyNameForms(tag: string, now: Clock, uuid: Result<string, Uuid.RandomError>)
    ensures uuid.Failure? ==>
      CanonicalInt(KeyName(tag, now, uuid)) && ParseInt(KeyName(tag, now, uuid)) == now.unixSeconds
    ensures uuid.Success? ==> EndsWith(KeyName(tag, now, uuid), "-" + uuid.value)
    ensures uuid.Success? && tag != "" ==> StartsWith(KeyName(tag, now, uuid), tag + "-" + MinuteStamp(now) + "-")
    ensures uuid.Success? && tag == "" ==> StartsWith(KeyName(tag, now, uuid), MinuteStamp(now) + "-")
    ensures uuid.Success? && tag != "" ==> |KeyName(tag, now, uuid)| == |tag| + |MinuteStamp(now)| + |uuid.value| + 2
    ensures uuid.Success? && tag == "" ==> |KeyName(tag, now, uuid)| == |MinuteStamp(now)| + |uuid.value| + 1
  {
    if uuid.Failure? {
      IntToDecimalCanonical(now.unixSeconds);
    } else {
      var name := KeyName(tag, now, uuid);
      var id := uuid.value;
      if tag != "" {
        assert name == (tag + "-" + MinuteStamp(now)) + ("-" + id);
        assert name == (tag + "-" + MinuteStamp(now) + "-") + id;
      } else {
        assert name == MinuteStamp(now) + ("-" + id);
        assert name == (MinuteStamp(now) + "-") + id;
      }
    }
  }

  /**
    Without a UUID the key name is the Unix time alone: two flushes in the same
    second write to the same key whatever their tags, so the later object
    replaces the earlier one in the bucket.
  */
  lemma FallbackKeysCollide(prefix: string, tag1: string, tag2: string, now: Clock, e1: Uuid.RandomError, e2: Uuid.RandomError, gzip: bool)
    ensures ObjectKey(prefix, tag1, now, Failure(e1), gzip) == ObjectKey(prefix, tag2, now, Failure(e2), gzip)
  {
  }

  lemma MiddleDetermined(p: string, x: string, y: string, e: string)
    requires p + x + e == p + y + e
    ensures x == y
  {
    var s1 := p + x + e;
    var s2 := p + y + e;
    assert |x| == |y|;
    assert s1[|p|..|p| + |x|] == x;
    assert s2[|p|..|p| + |y|] == y;
  }

  /** Two flushes in the same minute with different UUIDs write to different keys. */
  lemma DistinctUuidsDistinctKeys(prefix: string, tag: string, now: Clock, id1: string, id2: string, gzip: bool)
    requires id1 != id2
    ensures ObjectKey(prefix, tag, now, Success(id1), gzip) != ObjectKey(prefix, tag, now, Success(id2), gzip)
  {
    var dir, stamp, ext := DatePath(prefix, now), MinuteStamp(now), Extension(gzip);
    var head := if tag != "" then dir + "/" + tag + "-" + stamp + "-" else dir + "/" + stamp + "-";
    KeyLayout(dir, tag, stamp, id1, ext, head);
    KeyLayout(dir, tag, stamp, id2, ext, head);
    if head + id1 + ext == head + id2 + ext {
      MiddleDetermined(head, id1, id2, ext);
    }
  }

  lemma KeyLayout(dir: string, tag: string, stamp: string, id: string, ext: string, head: string)
    requires head == if tag != "" then dir + "/" + tag + "-" + stamp + "-" else dir + "/" + stamp + "-"
    ensures dir + "/" + (if tag != "" then tag + "-" + stamp + "-" + id else stamp + "-" + id) + ext == head + id + ext
  {
  }

  /** Random readings whose stamped bytes differ lead to different keys within the same minute. */
  lemma DistinctRandomDistinctKeys(prefix: string, tag: string, now: Clock, r1: seq<bv8>, r2: seq<bv8>, gzip: bool)
    requires |r1| >= Uuid.UuidBytes && |r2| >= Uuid.UuidBytes
    requires Uuid.Stamp(r1[..Uuid.UuidBytes]) != Uuid.Stamp(r2[..Uuid.UuidBytes])
    ensures ObjectKey(prefix, tag, now, Uuid.FromRandom(Some(r1)), gzip)
         != ObjectKey(prefix, tag, now, Uuid.FromRandom(Some(r2)), gzip)
  {
    Uuid.RenderInjective(Uuid.Stamp(r1[..Uuid.UuidBytes]), Uuid.Stamp(r2[..Uuid.UuidBytes]));
    DistinctUuidsDistinctKeys(prefix, tag, now, Uuid.FromRandom(Some(r1)).value, Uuid.FromRandom(Some(r2)).value, gzip);
  }
}
