# ytindexer in Dafny

A model of the YouTube playlist indexer function (`lambda/ytindexer/index.py`).
An invocation is either a stack-deletion event or an indexing run.

- **Deletion event.** The function purges the media bucket, then reports SUCCESS to the provisioning callback.
- **Indexing run.** The function walks the first `numberOfYTVideos` URLs of a playlist. For each URL it:
  - extracts the video identifier (`ytvideoid`);
  - downloads the audio and uploads it under `mediaFolderPrefix + id + ".mp3"`;
  - creates the index record only if none exists for the identifier (a conditional put);
  - writes a metadata document under `metaDataFolderPrefix + mediaFolderPrefix + id + ".mp3.metadata.json"`.

  Each entry is retried while its code is non-zero and the counter is within the `RETRY` ceiling. The first entry that still fails ends the run with FAILED.

The model is split into modules that follow the program's structure:

- `Wrappers` has `Option` and `PyResult`. `PyResult` is either a returned value or a raised exception.
- `Numbers` has integer `Min` and `Max`.
- `Strings` has the Python string and slice operations the code uses, with Python's semantics. This includes `s[1:]`, `split`, `find`, and `xs[:n]` with a negative `n`.
- `VideoIds` models `ytvideoid`.
- `Layout` has the configuration, the watch URL and the two object keys.
- `Indexer` models `downloadYTAudio` and `updateDDBTable`. The index table and the bucket are a `Store` of two maps.
- `Retry` is the `while True` retry loop, generic over its step.
- `Handler` models `exit_status`, `empty_bucket` and `lambda_handler`.

External services are parameters:

- `Attempt` says how every external call of one try turns out: the video constructor, the download, the upload, the video's descriptive fields, the conditional put and the metadata write.
- `Environment.fetch(j, k)` gives the `Attempt` of try `k` of playlist entry `j`.
- `Environment.playlist` is the playlist, resolved to parsed URLs.
- `Environment.purgeOk` says whether the purge succeeds.
- Callbacks are recorded in the result, not sent.

Python exceptions follow the code exactly:

- An exception from `downloadYTAudio` is caught by the `try` around the retry loop. It ends that entry, and so the run, with FAILED.
- `ytvideoid` is called before that `try`. For a `/watch` URL without a `v` parameter it raises `KeyError`, and that exception escapes the handler with no callback at all. The model returns `Raised` for the handler in that case.
- A recognised shape of URL never raises. An unrecognised one yields `None`, which makes `downloadYTAudio` raise inside the `try`, and the run ends with FAILED.

In some places the code does not do what a caller would expect. The model follows the code:

- A caller would expect a URL the indexer cannot read to fail only that entry. A `/watch` URL without `v` instead raises at `p['v'][0]` (index.py line 45). The call happens at line 174, outside the loop's `try`, so the whole invocation crashes (see above).
- A caller would expect a failed purge to be reported as a failure. The code sends a FAILED callback from `empty_bucket` (index.py line 147) and the handler drops its return value. The handler then sends a second callback and returns SUCCESS (line 157; see `Handler.DeleteWithFailedPurge`).
- A resource type in which `CustomResource` starts at position 0 gets no callback, because the code tests `find(...) > 0`.
- A missing publish date makes `isoformat()` raise inside the put's `try`. The handler then reads `e.response`, which raises again, so the index stage ends in code 3. A put exception without a service response behaves the same way.
- A negative `numberOfYTVideos` slices from the end of the playlist, as Python's `xs[:n]` does.

## Model

| member | source | states |
|---|---|---|
| Strings.DropFirst | lambda/ytindexer/index.py:41 | `s[1:]`: empty for an empty string, otherwise the first character followed by the result gives back `s` |
| Strings.Find | lambda/ytindexer/index.py:55 | `str.find`: -1 exactly when the substring occurs nowhere, otherwise its lowest occurrence |
| Strings.SlicePrefix | lambda/ytindexer/index.py:171 | `xs[:n]` is a prefix of `xs` of length `min(n, len)` for `n >= 0` and `max(0, len + n)` for `n < 0` |
| Strings.Split | lambda/ytindexer/index.py:47 | `str.split` on one separator character yields at least one piece, and no piece contains the separator |
| Strings.PrefixSliceTest | lambda/ytindexer/index.py:46 | the test `s[:len(p)] == p` holds exactly when `p` is a prefix of `s` (`StartsWith`), including when `s` is shorter than `p` |
| Strings.SplitJoin | lambda/ytindexer/index.py:47 | `str.split` loses nothing: joining the pieces with the separator rebuilds the string |
| Strings.JoinSplit | lambda/ytindexer/index.py:47 | splitting a join of separator-free pieces gives back the pieces |
| VideoIds.ThirdPiece | lambda/ytindexer/index.py:47-49 | `path.split('/')[2]` after a `/embed/` or `/v/` prefix is the text up to the next `/` after that prefix |
| VideoIds.VideoId | lambda/ytindexer/index.py:38-50 | youtu.be gives the path minus its first character; `/watch` on the full hosts gives the first `v` value and raises exactly when `v` is missing; `/embed/` and `/v/` give the segment after the prefix; every other URL gives None |
| VideoIds.EmbedLinkExample | lambda/ytindexer/index.py:46-47 | an embed URL with a trailing segment yields only the identifier segment |
| VideoIds.WatchWithoutIdExample | lambda/ytindexer/index.py:43-45 | a `/watch` URL without `v` raises |
| Layout.WatchUrl | lambda/ytindexer/index.py:66 | the watch URL is the fixed base followed by the identifier, which can be read back from it |
| Layout.MediaKey | lambda/ytindexer/index.py:83 | the audio key starts with the media prefix, ends with `.mp3`, and what lies between them is exactly the identifier |
| Layout.MetadataKey | lambda/ytindexer/index.py:129 | the metadata key is the configured metadata prefix, then the audio key of the same video, then `.metadata.json` |
| Layout.MediaKeyRoundTrip | lambda/ytindexer/index.py:83 | the identifier read back from an audio key is the identifier it was built from |
| Layout.MediaKeyIdSound | lambda/ytindexer/index.py:83 | any key from which an identifier can be read back is that identifier's audio key |
| Layout.MediaKeyInjective | lambda/ytindexer/index.py:83 | two videos never share an audio key |
| Layout.MetadataKeyInjective | lambda/ytindexer/index.py:129 | two videos never share a metadata key |
| Layout.MediaKeyNeverMetadataKey | lambda/ytindexer/index.py:129 | no metadata document overwrites an audio file |
| Indexer.UpdateTable | lambda/ytindexer/index.py:100-137 | returns only 0, 4 or 5, or raises. It raises exactly when the publish date is missing or the put error carries no service response. Any other put error gives 4, and a failed metadata write after a successful or already-present put gives 5. An existing record is never replaced and only this video's record can appear. "Already indexed" is success. Code 0 means the record exists and exactly the metadata key was written. A put failure or an exception changes nothing, and code 5 leaves the bucket alone |
| Indexer.IndexTwice | lambda/ytindexer/index.py:103-137 | indexing a video twice leaves the table as the first call left it, both calls report 0, and the metadata document is rewritten |
| Indexer.DownloadAudio | lambda/ytindexer/index.py:64-98 | raises exactly when there is no identifier or the video object cannot be built. Codes 1 and 2 occur exactly on a failed download or upload and change nothing. Past the upload the audio object is present. A try with every call succeeding returns 0, and 0 means the record and the metadata document are present. Records are kept, and only this video's key can be added |
| Indexer.DownloadStageCodes | lambda/ytindexer/index.py:90-98 | after the upload, the result is 3 with the audio file stored when reading the video's fields raises, 3 when the index stage raises, and otherwise exactly the index stage's code |
| Retry.Loop | lambda/ytindexer/index.py:173-184 | every try but the last returned non-zero with the counter within the ceiling. The last returned 0, raised, or ran past the ceiling. There are at most `max(1, ceiling + 2 - count)` tries |
| Retry.LoopFollows | lambda/ytindexer/index.py:176-184 | each recorded result and state is the step applied to the previous state with that try's counter |
| Retry.AlwaysFailingAttempts | lambda/ytindexer/index.py:176-184 | a step that always returns non-zero is called exactly `max(1, ceiling + 2 - count)` times, and the loop ends non-zero |
| Retry.FirstCallDecides | lambda/ytindexer/index.py:178-179 | a first call that returns 0 or raises is the only call |
| Retry.AttemptBound | lambda/ytindexer/index.py:173-184 | from count 1 there are between 1 and `max(1, RETRY + 1)` tries, and exactly that many when the last is still non-zero |
| Handler.ExitStatus | lambda/ytindexer/index.py:52-62 | returns the status unchanged. It sends one callback, carrying that status and the event's resource id, exactly when the resource type contains `CustomResource` but does not start with it |
| Handler.CallbackExamples | lambda/ytindexer/index.py:54-55 | the marker after position 0 fires a callback; at position 0 or absent it does not |
| Handler.EmptyBucket | lambda/ytindexer/index.py:139-147 | never touches the table. With a bucket, a successful purge empties it; a failed one leaves it and yields the FAILED callbacks of `exit_status`. With no bucket nothing happens |
| Handler.Truncate | lambda/ytindexer/index.py:169-171 | the visited URLs are the first `min(len, numberOfYTVideos)` for a non-negative count, and all but the last `-n` for a negative one |
| Handler.EntryKeeps | lambda/ytindexer/index.py:173-184 | no try of a playlist entry replaces an existing record |
| Handler.EntryRunner | lambda/ytindexer/index.py:173-184 | the retry loop around `downloadYTAudio` starts from the current store and keeps every existing record |
| Handler.DriveFrom | lambda/ytindexer/index.py:171-192 | fail-fast: every entry before the last attempted one succeeded. SUCCESS exactly when all entries were attempted and all succeeded. FAILED exactly when the last attempted entry still failed. An escaping exception comes only from the next entry's identifier, after every earlier entry succeeded. Records are kept |
| Handler.DriveShape | lambda/ytindexer/index.py:171-192 | the i-th trace is the retry loop of entry i, entered with the store the previous entry left, and the run ends with the store the last entry left |
| Handler.LambdaHandler | lambda/ytindexer/index.py:149-192 | Delete never indexes, leaves the store as `empty_bucket` leaves it, sends the purge's callbacks followed by those of `exit_status(SUCCESS)`, and returns SUCCESS. An empty playlist URL is a no-op SUCCESS. A returned status is reported by `exit_status` and an escaping exception sends nothing. Existing records are never replaced |
| Handler.PlaylistRun | lambda/ytindexer/index.py:159-192 | the indexing run visits a prefix of the truncated playlist in order, each entry with the store its predecessor left. It is fail-fast: an entry still failing after its retries makes the run report FAILED. SUCCESS exactly when every entry of the truncated playlist succeeded. An exception escapes only from `ytvideoid`, after every earlier entry succeeded |
| Handler.FailingFirstEntry | lambda/ytindexer/index.py:173-187 | a first entry whose download always fails is tried exactly `max(1, RETRY + 1)` times, the run reports FAILED, and the second entry is never reached |
| Handler.FirstTryRaises | lambda/ytindexer/index.py:64-67 | a first entry whose first try raises (no identifier at line 66, or an unbuildable video object at line 67) is caught by the loop's `try`: one try, no retry, the store untouched, FAILED reported through `exit_status` |
| Handler.UnrecognisedFirstEntry | lambda/ytindexer/index.py:174-190 | an unrecognised first URL makes the run fail after one try of that entry, with the store untouched |
| Handler.UnbuildableFirstEntry | lambda/ytindexer/index.py:67 | a first video whose object cannot be built makes the run fail after one try, with the store untouched |
| Handler.CleanEntry | lambda/ytindexer/index.py:173-184 | an entry whose calls all succeed takes one try, succeeds and adds exactly its own key to the table |
| Handler.CleanDrive | lambda/ytindexer/index.py:171-192 | with every entry clean, the run succeeds with one try per entry and the table gains exactly the entries' identifiers |
| Handler.CleanRun | lambda/ytindexer/index.py:159-192 | a clean indexing run reports SUCCESS with one try per entry. The table gains exactly the playlist's identifiers and keeps every record. A rerun over already indexed videos leaves the table as it was |
| Handler.DeleteWithFailedPurge | lambda/ytindexer/index.py:153-157 | a Delete whose purge fails sends FAILED, then SUCCESS, returns SUCCESS and changes nothing |

## Left out

- URL parsing (`urlparse`, `parse_qs`) is done by the URL library. The model takes the parsed hostname, path and query map as input.
- The video library (pytube) is reduced to the outcomes recorded in `Attempt`: its constructor, stream selection and download, and its descriptive fields. Building the playlist object (line 167) and its network access are out of scope, so the model starts from the resolved list of URLs.
- The storage clients (boto3) are reduced to the outcomes in `Attempt` and `purgeOk`, together with the effects modelled on the `Store` maps. The table name, the region and the client construction are not modelled.
- The local `/tmp` audio file is not modelled. The upload is modelled as the audio object appearing under its key.
- The callback HTTP request (`cfnresponse.send`), its empty data map and the invocation context are not modelled. Callbacks are recorded, not sent.
- The JSON encoding and UTF-8 bytes of the metadata document are not modelled; it is kept as a structured `MetaDoc`. The `isoformat()` rendering of the publish date is given as a string.
- Logging and the two-second `sleep` between retries are not modelled, since they have no effect on results.
- Reading the environment is not modelled. `Config` holds the parsed values. This covers the reads at import time (lines 15-35) and the reads on every call: `playListURL`, `AWS_REGION` and `numberOfYTVideos` at lines 159 and 164-165, and `ddbTableName` at line 101. A missing or malformed value at lines 159 and 164-165 would make the handler raise outside any `try`. A missing `ddbTableName` would make every try return 3.
- The module-level `region` and `LOG_LEVEL` settings are not modelled, since no logic depends on them.
- Handler.EmptyBucket: a purge that deletes some objects before failing is not modelled. A failed purge leaves the bucket as it was.
- Concurrent invocations that race on the conditional put are not modelled. The put is an atomic map update.
