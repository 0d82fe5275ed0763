/** One video's fetch-upload-index pipeline (`downloadYTAudio`) and its last
    stage, the conditional index write plus metadata document
    (`updateDDBTable`). The video library and the two storage services are
    replaced by an `Attempt`: the outcomes those external calls have on this
    try. The key-value table and the bucket are pure maps in a `Store`. */
module Indexer {
  import opened Wrappers
  import opened Layout

  /** What the video library reports about a video. `publishDate` is the ISO-8601
      rendering of the publish date, absent when the library has no date. */
  datatype VideoInfo = VideoInfo(author: string, length: int, publishDate: Option<string>, views: int, title: string)

  /** One item of the key-value table, keyed by `ytkey`. */
  datatype Record = Record(
    ytkey: string,
    downloaded: bool,
    author: string,
    videoLength: int,
    publishDate: string,
    viewCount: int,
    sourceUri: string,
    title: string)

  /** The metadata document stored next to the audio file. */
  datatype MetaDoc = MetaDoc(
    sourceUri: string,
    category: string,
    createdAt: string,
    videoLength: int,
    viewCount: int,
    author: string,
    ytSource: string,
    title: string)

  datatype StoredObject = AudioFile(ytkey: string) | MetadataJson(doc: MetaDoc)

  /** The durable state this code touches: the index table and the media bucket. */
  datatype Store = Store(table: map<string, Record>, objects: map<string, StoredObject>)

  /** A failed `put_item` other than the expected "condition failed":
      `ServiceError` is a service error with some other error code (reported as
      code 4); `NonServiceError` is an exception that carries no service
      response, so reading its error code raises again and the exception leaves
      the index stage. */
  datatype PutFault = ServiceError | NonServiceError

  /** The outcome of every external call in one try of one video:
      - `constructorFails`: building the video object raises;
      - `downloadOk`: selecting and downloading the audio stream succeeds;
      - `uploadOk`: uploading the audio file succeeds;
      - `info`: the video's descriptive fields, absent when reading them raises;
      - `putFault`: a failure of the conditional put, if any;
      - `metadataWriteOk`: writing the metadata document succeeds. */
  datatype Attempt = Attempt(
    constructorFails: bool,
    downloadOk: bool,
    uploadOk: bool,
    info: Option<VideoInfo>,
    putFault: Option<PutFault>,
    metadataWriteOk: bool)

  /** A try in which every external call succeeds. */
  predicate Clean(a: Attempt)
  {
    && !a.constructorFails && a.downloadOk && a.uploadOk
    && a.info.Some? && a.info.value.publishDate.Some?
    && a.putFault.None? && a.metadataWriteOk
  }

  const Category := "YouTube video"

  function MakeRecord(id: string, info: VideoInfo, date: string, uri: string): Record
  {
    Record(id, true, info.author, info.length, date, info.views, uri, info.title)
  }

  function MakeDoc(info: VideoInfo, date: string, uri: string): MetaDoc
  {
    MetaDoc(uri, Category, date, info.length, info.views, info.author, uri, info.title)
  }

  /** Every record of `a` is still in `b`, unchanged: records are created at most once. */
  predicate Keeps(a: Store, b: Store)
  {
    forall k :: k in a.table ==> k in b.table && b.table[k] == a.table[k]
  }

  lemma KeepsTransitive(a: Store, b: Store, c: Store)
    requires Keeps(a, b) && Keeps(b, c)
    ensures Keeps(a, c)
  {
  }

  /** `updateDDBTable`: create the record if no record has this key, then
      (re)write the metadata document. Returns 0, 4 (put failed), 5 (metadata
      write failed), or raises. */
  function UpdateTable(cfg: Config, id: string, info: VideoInfo, uri: string, fault: Option<PutFault>,
                       writeOk: bool, st: Store): (r: (PyResult<int>, Store))
    // only codes 0, 4 and 5 are returned
    ensures r.0.Returned? ==> r.0.value in {0, 4, 5}
    // at-most-once: an existing record is never replaced, and a new one is only ever this video's
    ensures Keeps(st, r.1)
    ensures id in st.table ==> r.1.table == st.table
    ensures r.1.table == st.table ||
              (info.publishDate.Some? && r.1.table == st.table[id := MakeRecord(id, info, info.publishDate.value, uri)])
    // success: the record exists and the metadata document was (over)written, nothing else changed
    ensures r.0 == Returned(0) ==>
              && info.publishDate.Some?
              && id in r.1.table
              && r.1.objects == st.objects[MetadataKey(cfg, id) := MetadataJson(MakeDoc(info, info.publishDate.value, uri))]
    // an existing key is not an error
    ensures fault.None? && info.publishDate.Some? && writeOk ==> r.0 == Returned(0)
    // any other put error is code 4, a failed metadata write code 5
    ensures info.publishDate.Some? && fault == Some(ServiceError) ==> r.0 == Returned(4)
    ensures info.publishDate.Some? && fault.None? && !writeOk ==> r.0 == Returned(5)
    // it raises exactly when the date cannot be rendered or the put error has no service response
    ensures r.0.Raised? <==> info.publishDate.None? || fault == Some(NonServiceError)
    // a put failure skips the metadata write; a metadata failure leaves the bucket alone
    ensures r.0 == Returned(4) || r.0.Raised? ==> r.1 == st
    ensures r.0 == Returned(5) ==> id in r.1.table && r.1.objects == st.objects
  {
    match info.publishDate
    case None =>
      // rendering the missing date raises inside the put's try block; the handler
      // then reads the exception's service response, which it does not have
      (Raised, st)
    case Some(date) =>
      match fault
      case Some(NonServiceError) => (Raised, st)
      case Some(ServiceError) => (Returned(4), st)
      case None =>
        // the condition `attribute_not_exists(ytkey)` fails exactly when the key is present
        var table := if id in st.table then st.table else st.table[id := MakeRecord(id, info, date, uri)];
        if writeOk then
          (Returned(0), Store(table, st.objects[MetadataKey(cfg, id) := MetadataJson(MakeDoc(info, date, uri))]))
        else
          (Returned(5), Store(table, st.objects))
  }

  /** Indexing the same video twice: the second call leaves the table as the
      first call left it (one record per key, never replaced), reports success
      rather than an error, and rewrites the metadata document. */
  lemma IndexTwice(cfg: Config, id: string, info1: VideoInfo, info2: VideoInfo, uri1: string, uri2: string, st: Store)
    requires info1.publishDate.Some? && info2.publishDate.Some?
    ensures var (c1, st1) := UpdateTable(cfg, id, info1, uri1, None, true, st);
            var (c2, st2) := UpdateTable(cfg, id, info2, uri2, None, true, st1);
            && c1 == Returned(0) && c2 == Returned(0)
            && st2.table == st1.table
            && id in st2.table
            && (id !in st.table ==> st2.table[id] == MakeRecord(id, info1, info1.publishDate.value, uri1))
            && st2.objects[MetadataKey(cfg, id)] == MetadataJson(MakeDoc(info2, info2.publishDate.value, uri2))
  {
  }

  /** `downloadYTAudio`: build the watch URL and the video object, download the
      audio, upload it, then index it. Returns 1 (download failed), 2 (upload
      failed), 3 (the index stage raised) or the index stage's own code; raises
      when there is no identifier or the video object cannot be built, both of
      which happen outside any try block. */
  function DownloadAudio(cfg: Config, ytkey: Option<string>, a: Attempt, st: Store): (r: (PyResult<int>, Store))
    // escapes: only a missing identifier or a failing constructor
    ensures r.0.Raised? <==> ytkey.None? || a.constructorFails
    ensures r.0.Returned? ==> 0 <= r.0.value <= 5
    // stage codes: a failed download uploads nothing, a failed upload indexes nothing
    ensures r.0 == Returned(1) <==> ytkey.Some? && !a.constructorFails && !a.downloadOk
    ensures r.0 == Returned(2) <==> ytkey.Some? && !a.constructorFails && a.downloadOk && !a.uploadOk
    ensures r.0.Raised? || r.0 == Returned(1) || r.0 == Returned(2) ==> r.1 == st
    // past the upload stage the audio file is in the bucket under its key
    ensures r.0.Returned? && r.0.value !in {1, 2} ==>
              MediaKey(cfg, ytkey.value) in r.1.objects && r.1.objects[MediaKey(cfg, ytkey.value)] == AudioFile(ytkey.value)
    // a try whose external calls all succeed returns 0, whether or not the video was already indexed
    ensures ytkey.Some? && Clean(a) ==> r.0 == Returned(0)
    // full success: record present and metadata document present
    ensures r.0 == Returned(0) ==> ytkey.value in r.1.table && MetadataKey(cfg, ytkey.value) in r.1.objects
    // records are never replaced, and only this video's record can appear
    ensures Keeps(st, r.1)
    ensures r.1.table.Keys <= st.table.Keys + (if ytkey.Some? then {ytkey.value} else {})
  {
    match ytkey
    case None => (Raised, st)
    case Some(id) =>
      if a.constructorFails then (Raised, st)
      else if !a.downloadOk then (Returned(1), st)
      else if !a.uploadOk then (Returned(2), st)
      else
        var uploaded := st.(objects := st.objects[MediaKey(cfg, id) := AudioFile(id)]);
        match a.info
        case None => (Returned(3), uploaded)
        case Some(info) =>
          MediaKeyNeverMetadataKey(cfg, id, id);
          var (code, after) := UpdateTable(cfg, id, info, WatchUrl(id), a.putFault, a.metadataWriteOk, uploaded);
          match code
          case Raised => (Returned(3), after)
          case Returned(c) => (Returned(c), after)
  }

  /** Past the upload, `downloadYTAudio` reports 3 when reading the video's
      fields raises or the index stage raises, and otherwise exactly the index
      stage's code. */
  lemma DownloadStageCodes(cfg: Config, id: string, a: Attempt, st: Store)
    requires !a.constructorFails && a.downloadOk && a.uploadOk
    ensures var uploaded := st.(objects := st.objects[MediaKey(cfg, id) := AudioFile(id)]);
            a.info.None? ==> DownloadAudio(cfg, Some(id), a, st) == (Returned(3), uploaded)
    ensures var uploaded := st.(objects := st.objects[MediaKey(cfg, id) := AudioFile(id)]);
            a.info.Some? ==>
              var inner := UpdateTable(cfg, id, a.info.value, WatchUrl(id), a.putFault, a.metadataWriteOk, uploaded);
              DownloadAudio(cfg, Some(id), a, st) == (if inner.0.Raised? then Returned(3) else inner.0, inner.1)
  {
  }
}
