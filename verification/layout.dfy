/** The indexer's configuration and the deterministic names it derives from a
    video identifier: the canonical watch URL, the object key of the audio file
    and the object key of its metadata document. */
module Layout {
  import opened Wrappers
  import opened Strings

  /** The environment values the function reads, gathered into one record:
      the target bucket, the two object-key prefixes (the metadata one as it is
      configured, before the media prefix is appended to it), the playlist URL,
      the maximum number of videos and the retry ceiling. */
  datatype Config = Config(
    mediaBucket: string,
    mediaFolderPrefix: string,
    metaDataFolderPrefix: string,
    playListUrl: string,
    numberOfVideos: int,
    retryCeiling: int)

  const WatchUrlBase := "https://www.youtube.com/watch?v="
  const AudioSuffix := ".mp3"
  const MetadataSuffix := ".metadata.json"

  /** The canonical watch URL of a video; the identifier can be read back from it. */
  function WatchUrl(id: string): (u: string)
    ensures StartsWith(u, WatchUrlBase) && u[|WatchUrlBase|..] == id
  {
    WatchUrlBase + id
  }

  /** The folder for metadata documents: the configured metadata prefix
      followed by the media prefix. */
  function MetadataFolder(cfg: Config): string
  {
    cfg.metaDataFolderPrefix + cfg.mediaFolderPrefix
  }

  /** Object key of the uploaded audio file. */
  function MediaKey(cfg: Config, id: string): (k: string)
    ensures StartsWith(k, cfg.mediaFolderPrefix) && EndsWith(k, AudioSuffix)
    ensures |k| == |cfg.mediaFolderPrefix| + |id| + |AudioSuffix|
    ensures k[|cfg.mediaFolderPrefix|..|k| - |AudioSuffix|] == id
  {
    cfg.mediaFolderPrefix + id + AudioSuffix
  }

  /** Object key of the metadata document: the metadata prefix, then the
      media key of the same video, then `.metadata.json`. */
  function MetadataKey(cfg: Config, id: string): (k: string)
    ensures k == cfg.metaDataFolderPrefix + MediaKey(cfg, id) + MetadataSuffix
  {
    assert ".mp3.metadata.json" == AudioSuffix + MetadataSuffix;
    MetadataFolder(cfg) + id + ".mp3.metadata.json"
  }

  /** The identifier named by an audio object key, if the key has that shape. */
  function MediaKeyId(cfg: Config, key: string): Option<string>
  {
    var p := cfg.mediaFolderPrefix;
    if StartsWith(key, p) && |key| >= |p| + |AudioSuffix| && EndsWith(key, AudioSuffix)
    then Some(key[|p|..|key| - |AudioSuffix|])
    else None
  }

  /** Reading the identifier back from an audio key gives the identifier. */
  lemma MediaKeyRoundTrip(cfg: Config, id: string)
    ensures MediaKeyId(cfg, MediaKey(cfg, id)) == Some(id)
  {
    var k := MediaKey(cfg, id);
    var p := cfg.mediaFolderPrefix;
    assert k[|p|..|k| - |AudioSuffix|] == id;
  }

  /** An audio key is fully determined by the identifier read back from it. */
  lemma MediaKeyIdSound(cfg: Config, key: string, id: string)
    requires MediaKeyId(cfg, key) == Some(id)
    ensures MediaKey(cfg, id) == key
  {
    var p := cfg.mediaFolderPrefix;
    assert key == key[..|p|] + key[|p|..|key| - |AudioSuffix|] + key[|key| - |AudioSuffix|..];
  }

  /** Different videos never share an audio key. */
  lemma MediaKeyInjective(cfg: Config, a: string, b: string)
    requires MediaKey(cfg, a) == MediaKey(cfg, b)
    ensures a == b
  {
    MediaKeyRoundTrip(cfg, a);
    MediaKeyRoundTrip(cfg, b);
  }

  /** Different videos never share a metadata key. */
  lemma MetadataKeyInjective(cfg: Config, a: string, b: string)
    requires MetadataKey(cfg, a) == MetadataKey(cfg, b)
    ensures a == b
  {
    var p := cfg.metaDataFolderPrefix;
    var ka, kb := MediaKey(cfg, a), MediaKey(cfg, b);
    assert |ka| == |kb|;
    assert ka == MetadataKey(cfg, a)[|p|..|p| + |ka|];
    assert kb == MetadataKey(cfg, b)[|p|..|p| + |kb|];
    MediaKeyInjective(cfg, a, b);
  }

  /** A metadata document never overwrites an audio file: the two kinds of key
      end in `.mp3` and `.json` respectively. */
  lemma MediaKeyNeverMetadataKey(cfg: Config, a: string, b: string)
    ensures MediaKey(cfg, a) != MetadataKey(cfg, b)
  {
    var ka, kb := MediaKey(cfg, a), MetadataKey(cfg, b);
    assert ka[|ka| - 1] == '3';
    assert kb[|kb| - 1] == 'n';
  }
}
