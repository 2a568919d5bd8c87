# Amazon S3 output for Fluent Bit — a Dafny model

This project models the buffering-and-flush engine of the Fluent Bit output
plugin for Amazon S3 and the decision logic of its host adapter, and proves
properties of that model.

**The `OutputPlugin` (s3/s3.go).** Each plugin instance owns one in-memory byte buffer.
- Every record the host delivers that encodes is written as one JSON line, framed with a single `\n`. A record that fails to encode is discarded (s3/s3.go:75-80).
- A record that would push the buffer past 5 MiB (`maximumObjectSize`, strictly greater) first makes the plugin flush the buffer as it is. The outcome of that flush is ignored, and then the line is appended.
- A flush names one object `{prefix}/{year}/{month}/{day}/{hour}/{keyname}{ext}` and optionally gzips the buffer. It uploads the buffer with one `PutObject` call, using the canned ACL `bucket-owner-full-control` and a `ContentLength` equal to the bytes sent.
- The buffer is emptied only when the upload succeeded.
- The key name carries a random (version 4) UUID. The code that generates it stamps the RFC 4122 version (section 4.1.3) and variant (section 4.1.1) fields into 16 random bytes in place.

**The host adapter (fluent-bit-s3.go).**
- It reads and checks the configuration: `region` and `bucket` are required, and `gzip` is a case-insensitive boolean that defaults to true.
- It registers each instance in a process-wide list. An instance's ID is its position in that list.
- For every batch the host delivers, it hands each record to `AddRecord` in order and then flushes exactly once. A failed flush becomes `FLB_ERROR`.

**How the model is built.**
- The state that changes in place is modelled with classes:
  - `S3Output.OutputPlugin`, with a `logs` buffer;
  - `S3Output.S3Client`, which records every upload it makes;
  - `FluentBitS3.Registry`, which holds the instance list.
- The `newUUID` byte array is a Dafny `array<bv8>` that is masked in place.
- The methods of `OutputPlugin` and the batch method `PluginFlushCtx` are proved against pure step functions on a `Snapshot` (the buffer plus the list of uploads): `SendStep`, `AddRecordStep`, `AddRecordsStep` and `FlushCtxStep`. The other methods (`S3Client.PutObject`, `Uuid.NewUuid`, `Registry.AddPluginInstance`, `PluginInit`) state their results and new state directly.
- The module `Delivery` proves the end-to-end guarantees on those step functions:
  - every encoded byte is in an accepted upload or still in the buffer, in upload order;
  - the buffer stays within 5 MiB while uploads succeed;
  - each batch ends with exactly one upload.

**What the model takes as inputs.**
- The clock reading, the random bytes and the storage service's answer to each upload are inputs to the model (`Env`). A batch receives one `Env` per record plus one for its final flush.
- The record encoder (`plugins.DecodeMap` followed by `jsoniter.Marshal`) and the gzip writer are function values (`Codecs`) given to each instance.

**Where the code differs from what its comments or the host would lead one to expect.**
- The comment on `AddRecord` (s3/s3.go:72-73) says that API errors lead to `FLB_RETRY`. The code returns `FLB_OK` on every path, including after a failed flush, and the model follows the code.
- The code returns `FLB_ERROR` for a failed end-of-batch flush (fluent-bit-s3.go:130), not `FLB_RETRY`, so Fluent Bit does not retry the batch. The model follows the code.

## Model

| member | source | states |
|---|---|---|
| Format.NatToDecimalCanonical | s3/s3.go:120-121 | `%d` of a natural number has no superfluous leading zero, and the digits read back as the number printed |
| Format.IntToDecimalCanonical | s3/s3.go:120-121 | `%d` and `strconv.FormatInt(n, 10)` of any integer give a canonical signed decimal that parses back to the same integer |
| Format.Hex | s3/s3.go:102 | `%x` of a byte slice gives two lower-case hex digits per byte |
| Format.UnhexHex | s3/s3.go:102 | the `%x` rendering loses nothing: reading the hex digits back yields the original bytes |
| Format.ToLower | fluent-bit-s3.go:138 | lower-casing keeps the length and lowers each ASCII letter, position by position |
| Format.ToLowerMatches | fluent-bit-s3.go:138-142 | a lowered value equals `true` (or `false`) exactly when the value is that word in some letter case |
| Format.TrimSpace | s3/s3.go:206 | after trimming, the result is empty or begins and ends with a byte that is not white space |
| Format.TrimSpaceRun | s3/s3.go:206 | the trimmed result is a contiguous run of the input with only white space before and after it |
| Format.TrimSpaceEmpty | s3/s3.go:206 | trimming leaves nothing if and only if the input is all white space |
| Uuid.Stamp | s3/s3.go:98-101 | the high nibble of byte 6 becomes 4, the top two bits of byte 8 become `10`, the low bits of both are kept and every other byte is unchanged |
| Uuid.Render | s3/s3.go:102 | `%x-%x-%x-%x-%x` of the byte groups [0:4], [4:6], [6:8], [8:10] and [10:]; its layout and inverse are stated by `Uuid.RenderLayout` |
| Uuid.FromRandom | s3/s3.go:92-97 | generation fails exactly when the random source yields no bytes or fewer than 16 |
| Uuid.NewUuid | s3/s3.go:92-103 | the in-place masking of the 16-byte array, followed by formatting, returns exactly the stamped and rendered identifier, or the short-read error |
| Uuid.RenderLayout | s3/s3.go:102 | the rendering has 36 characters, dashes at positions 8, 13, 18 and 23 and lower-case hex elsewhere, and parses back to the 16 bytes |
| Uuid.RenderInjective | s3/s3.go:102 | two renderings are equal if and only if the bytes are equal |
| Uuid.VersionAndVariantDigits | s3/s3.go:98-102 | a generated identifier has `4` at position 14 and one of `8`, `9`, `a`, `b` at position 19 |
| ObjectKeys.DatePath | s3/s3.go:120 | the directory part `{prefix}/{year}/{month}/{day}/{hour}`, with unpadded decimals |
| ObjectKeys.MinuteStamp | s3/s3.go:126-128 | the time part `{year}-{month}-{day}-{hour}-{minute}` of a key name, with unpadded decimals |
| ObjectKeys.KeyName | s3/s3.go:121-131 | the key name: tagged or untagged minute stamp and UUID, or the decimal Unix time when no UUID could be made; its forms are stated by `ObjectKeys.KeyNameForms` |
| ObjectKeys.Extension | s3/s3.go:133-137 | `.gz` with compression, `.log` without |
| ObjectKeys.ObjectKey | s3/s3.go:140 | the object key `{datePath}/{keyname}{ext}`; stated by `ObjectKeys.ObjectKeyExtension` and the two distinct-key lemmas |
| ObjectKeys.ObjectKeyExtension | s3/s3.go:133-140 | the object key ends in `.gz` if and only if compression is on, and in `.log` if and only if it is off |
| ObjectKeys.KeyNameForms | s3/s3.go:121-131 | the key name has three forms: the tag, the minute stamp and the UUID with a non-empty tag; the minute stamp and the UUID with an empty tag; the canonical decimal Unix time when the UUID fails; the length fixes each UUID form as exactly those parts and their dashes |
| ObjectKeys.FallbackKeysCollide | s3/s3.go:116-124 | when no UUID could be made, the key depends on the Unix second and not on the tag, so two such flushes in the same second share a key |
| ObjectKeys.DistinctUuidsDistinctKeys | s3/s3.go:126-128 | in the same minute, with the same tag and extension, different UUIDs give different object keys |
| ObjectKeys.DistinctRandomDistinctKeys | s3/s3.go:123-140 | random readings whose stamped bytes differ give different object keys |
| S3Output.ProcessRecord | s3/s3.go:181-201 | the record is framed if and only if the encoder succeeds; `S3Output.ProcessRecordFrames` states what the framed line holds |
| S3Output.ProcessRecordFrames | s3/s3.go:197-200 | a framed record is one byte longer than the encoder's output, that byte is a newline at the end, and the bytes before it are the encoder's output |
| S3Output.LogString | s3/s3.go:203-207 | the log text is no longer than the record and does not begin or end with white space |
| S3Output.LogStringTrims | s3/s3.go:203-207 | the log text is the contiguous run of the record between leading and trailing white space, and it is empty if and only if the record is all white space |
| S3Output.PutObjectRequest | s3/s3.go:116-163 | the upload goes to the configured bucket with the canned ACL and the computed key; `ContentLength` equals the length of the body; the body is the raw buffer, or, with compression, the gzip stream of the buffer named `{keyname}.log` |
| S3Output.SendStep | s3/s3.go:105-174 | the state after `sendCurrentLogs`: one more upload of the buffer, and the buffer emptied only if that upload succeeded |
| S3Output.AddRecordStep | s3/s3.go:74-89 | the state after `AddRecord`: unchanged for a bad record; otherwise a `SendStep` first when the append would pass 5 MiB, then the line appended |
| S3Output.S3Client.PutObject | s3/s3.go:165-168 | each request is recorded with its outcome, and an error is returned exactly when the service refuses the request |
| S3Output.OutputPlugin.constructor | s3/s3.go:54-69 | a new instance keeps its configuration, owns a fresh client for its region, and starts with an empty buffer and no uploads |
| S3Output.OutputPlugin.AddRecord | s3/s3.go:74-89 | always returns `FLB_OK`. A record that fails to encode changes nothing. Otherwise, if the append would exceed 5 MiB, exactly one upload of the old buffer happens first, and the buffer becomes the line (upload succeeded) or the old buffer plus the line (upload failed). If not, the line is appended and nothing is uploaded |
| S3Output.OutputPlugin.SendCurrentLogs | s3/s3.go:105-174 | exactly one upload of the current buffer is made; the buffer is emptied if and only if the upload succeeded, and the error is returned exactly then |
| S3Output.OutputPlugin.Flush | s3/s3.go:176-179 | a flush is one `sendCurrentLogs`, with the same new state and the same error |
| FluentBitS3.ConfigKey | fluent-bit-s3.go:61-69 | an absent configuration key reads as the empty string |
| FluentBitS3.GetBoolParam | fluent-bit-s3.go:137-146 | the lowered value compared with `true` and `false`, else the default; stated by `FluentBitS3.GetBoolParamCases` |
| FluentBitS3.GetBoolParamCases | fluent-bit-s3.go:137-146 | the parameter is true if and only if the value is `true` in some letter case, or it is not `false` in any letter case and the default is true; an absent key gives the default |
| FluentBitS3.NewS3Output | fluent-bit-s3.go:60-74 | creation fails if and only if `region` or `bucket` is empty; otherwise region, bucket, prefix and ID are passed through |
| FluentBitS3.NewS3OutputDefaults | fluent-bit-s3.go:69-73 | compression is on unless `gzip` is `false` in some letter case, and an unset prefix is empty |
| FluentBitS3.Registry.constructor | fluent-bit-s3.go:31-33 | the registry starts empty |
| FluentBitS3.Registry.AddPluginInstance | fluent-bit-s3.go:35-45 | the new ID is the registry length before the call. On failure the registry is unchanged. On success it grows by exactly one fresh instance, with that ID, the checked configuration, an empty buffer and a fresh client, and every earlier entry kept. Every entry keeps the ID of its position, and no two entries share a client |
| FluentBitS3.Registry.GetPluginInstance | fluent-bit-s3.go:47-50 | the instance returned is a registered one and carries the requested ID |
| FluentBitS3.PluginInit | fluent-bit-s3.go:76-86 | returns `FLB_ERROR` if and only if the instance could not be created, and then the registry is unchanged. Otherwise it returns `FLB_OK`; the earlier entries are kept and one instance is appended, with the new ID, the checked configuration, the given codecs and an empty state |
| FluentBitS3.AddRecordsStep | fluent-bit-s3.go:102-126 | the state after `AddRecord` has taken each record of the batch in order, record `i` under the outside world's answers for step `i` |
| FluentBitS3.FlushCtxStep | fluent-bit-s3.go:102-134 | the state after a whole batch: `AddRecordsStep`, then one `SendStep` |
| FluentBitS3.PluginFlushCtx | fluent-bit-s3.go:88-135 | every record is handed to `AddRecord` in order, then the instance is flushed once; the new state is that of the whole batch, `count` is the number of records, and the status is `FLB_OK` if and only if the final flush succeeded, otherwise `FLB_ERROR`; every other registered instance keeps its buffer and uploads |
| Delivery.SendStepConserves | s3/s3.go:165-172 | a flush moves the buffer into storage or leaves it in place; stored bytes plus buffered bytes do not change |
| Delivery.PayloadOfRequest | s3/s3.go:142-155 | when gzip is lossless, the uncompressed payload of an upload is exactly the buffer it was built from |
| Delivery.AddRecordStepConserves | s3/s3.go:74-89 | `AddRecord` adds exactly the record's framed line, or nothing for a bad record, to what is stored plus what is buffered |
| Delivery.AddRecordsConserve | fluent-bit-s3.go:102-126 | after a batch's records, stored plus buffered bytes have grown by exactly the framed lines of the encodable records, in order |
| Delivery.FlushCtxDelivers | fluent-bit-s3.go:102-134 | after a whole batch, every encoded byte is in an accepted upload or still in the buffer, in upload order; when the final flush succeeds, the buffer is empty and the accepted uploads carry every line of the batch |
| Delivery.AddRecordsWithinCap | s3/s3.go:82-87 | while every upload succeeds and no single line exceeds 5 MiB, the buffer never exceeds 5 MiB |
| Delivery.FailedFlushOverfillsBuffer | s3/s3.go:83-87 | when the flush before an append fails, the line is still appended and the buffer exceeds 5 MiB |
| Delivery.AddRecordsUploadCount | fluent-bit-s3.go:102-126 | a batch of n records makes at most n uploads before its final flush, and earlier uploads are never rewritten |
| Delivery.FlushCtxFlushesOnce | fluent-bit-s3.go:127-134 | every batch, including an empty one, ends with exactly one more upload, of the buffer as the records left it |
| Delivery.AddRecordFits | s3/s3.go:82-88 | a line that fits is appended and nothing is uploaded |
| Delivery.AddRecordOverflows | s3/s3.go:82-88 | with or without compression, a line that does not fit first makes exactly one upload whose payload is the old buffer, earlier uploads kept. The buffer then holds only the new line after a successful upload, and the old buffer plus the line after a failed one. Compression counts as lossless (`Delivery.Lossless`) |
| Delivery.FlushUploadsBuffer | s3/s3.go:142-172 | with or without compression, a flush appends one upload whose payload is the buffer, with the service's answer as its outcome; the buffer is emptied if and only if the upload succeeded. Compression counts as lossless |
| Delivery.SingleRecordScenario | fluent-bit-s3.go:102-134 | (without compression) one small record gives exactly one upload of its JSON line and newline, with the right length, bucket and ACL, under a `.log` key |
| Delivery.TwoLargeRecordsScenario | s3/s3.go:82-87 | with or without compression, two records that together exceed 5 MiB cause exactly two uploads. The first carries the first line, and its outcome is the service's answer. The second carries the second line if the first upload succeeded, and both lines if it failed. Compression counts as lossless |

## Left out
- The AWS SDK session, the client and the `PutObject` transport (s3/s3.go:56-58, 165) are not modelled. An upload is a request recorded by `S3Client` together with a success flag that is an input.
- The gzip algorithm and the `zw.Name` header (s3/s3.go:143-147) are not modelled. Compression is the function value `Codecs.compress`, given the header name. The round trip is assumed only where stated: `Delivery.Lossless` is a precondition of the conservation lemmas.
- `plugins.DecodeMap` and `jsoniter.Marshal` (s3/s3.go:184-191) are the partial function `Codecs.marshal`. The JSON text itself is not modelled.
- `crypto/rand` and `time.Now` (s3/s3.go:94, 116) are not modelled. Their results are inputs, given as `Env.random` (the bytes read before the source ran out, or `None` on a read error) and `Env.now`.
- The C ABI is not modelled: `unsafe.Pointer` contexts, `FLBPluginRegister`, `FLBPluginExit`, `main`, and the msgpack decoder `NewDecoder`/`GetRecord` (fluent-bit-s3.go:55-58, 96, 104, 148-154). The decoded batch is a `seq<Record>`, and the context is the instance ID.
- The timestamp type switch (fluent-bit-s3.go:109-119) is not modelled. `AddRecord` never reads the timestamp.
- logrus logging is not modelled; it has no effect on state.
- `FluentBitS3.Registry.GetPluginInstance`: Go panics on an ID outside the registry. The model makes a registered ID a precondition, as does `FluentBitS3.PluginFlushCtx`.
- `FluentBitS3.PluginFlushCtx`: the early return on a non-OK `AddRecord` result (fluent-bit-s3.go:122-124) is kept as a branch. `AddRecord` always returns `FLB_OK`, so the branch is never taken.
- `Format.ToLower` covers ASCII letters only. `strings.ToLower` also lowers non-ASCII letters, but this cannot change whether a value equals `true` or `false`.
- `Format.TrimSpace` and `S3Output.LogString` trim ASCII white space only. `strings.TrimSpace` also removes multi-byte Unicode white space such as U+00A0 and U+3000.
- `S3Output.PutObjectRequest`: `ContentLength` is an unbounded integer, not an `int64`. A body of 2^63 bytes or more is not a concern at a 5 MiB cap.
- `ObjectKeys.DatePath` and `ObjectKeys.KeyName`: the calendar fields are free inputs. The model does not check that they form a real date or that they agree with the Unix time.
- `Delivery.Stored`: it records the payloads of accepted uploads, not the bucket's contents. The model does not capture that an upload to an existing key replaces the object. Under the Unix-time fallback key this can happen: `ObjectKeys.FallbackKeysCollide` shows that two flushes in the same second share a key whatever their tags. The model also does not capture the order in which the bucket lists keys. Within a minute that order follows the random UUID, and the unpadded numbers sort "10" before "9".
- s3/s3_test.go is not part of this model. It does not compile: it uses an undeclared `timestamp` and a missing `records` field. The only usable assertion in it is that `AddRecord` returns `FLB_OK`, which `S3Output.OutputPlugin.AddRecord` states.
