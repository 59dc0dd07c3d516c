/**
 * The Telegram media source: a manager that downloads files through a bot and
 * keeps the five most recently downloaded ones in memory, and the translation of
 * a media source identifier into download options.
 */
module TelegramMedia {
  import opened Outcomes

  newtype byte = b: int | 0 <= b < 256

  /** A Telegram bot client; only the download uses it. */
  type Bot(==)

  /** The capacity of the in-memory cache (`deque(maxlen=5)`). */
  const MAX_ENTRIES := 5

  const PROXY_PATH := "/api/telegram_proxy/"
  const MIME_TYPE := "mime_type"
  const BOT_NAME := "bot_name"
  const NO_FIELD := "No field specified: "

  /** What is needed to fetch and serve one file. */
  datatype MediaSourceOptions = MediaSourceOptions(fileId: string, mimeType: string, botName: string)

  datatype Error =
    | Unresolvable(message: string)  // media_source.Unresolvable
    | UnknownBot(name: string)       // KeyError on the bots dictionary, not wrapped
    | DownloadFailed                 // the bot's download raised

  /** `str()` of a KeyError for a missing key: the key in quotes. */
  function KeyErrorText(key: string): string {
    "'" + key + "'"
  }

  predicate Distinct(s: seq<string>) {
    forall i, j :: 0 <= i < j < |s| ==> s[i] != s[j]
  }

  /** The file ids a FIFO cache holds after the downloads `h`: the last five, oldest first. */
  function Latest(h: seq<string>): seq<string> {
    if |h| <= MAX_ENTRIES then h else h[|h| - MAX_ENTRIES..]
  }

  /** One more download: a full cache drops its oldest entry, then the new id is the newest. */
  lemma LatestAppend(h: seq<string>, k: string)
    ensures |Latest(h)| <= MAX_ENTRIES
    ensures Latest(h + [k]) == (if |Latest(h)| == MAX_ENTRIES then Latest(h)[1..] else Latest(h)) + [k]
  {
  }

  /** A full, duplicate-free cache that receives a new id loses exactly its oldest one. */
  lemma OldestEvicted(h: seq<string>, k: string)
    requires |h| >= MAX_ENTRIES && Distinct(Latest(h)) && k !in Latest(h)
    ensures Latest(h)[0] !in Latest(h + [k])
    ensures forall i :: 1 <= i < MAX_ENTRIES ==> Latest(h)[i] in Latest(h + [k])
    ensures Distinct(Latest(h + [k]))
  {
    LatestAppend(h, k);
    var w := Latest(h);
    var w' := Latest(h + [k]);
    assert w' == w[1..] + [k];
    forall i | 1 <= i < MAX_ENTRIES ensures w[i] in w' {
      assert w'[i - 1] == w[i];
    }
  }

  /** Downloads and serves Telegram files, keeping the latest ones in memory. */
  class TelegramManager {
    var bots: map<string, Bot>
    /** File id to (mime type, contents). */
    var memCache: map<string, (string, seq<byte>)>
    /** The cached file ids, oldest first. */
    var entries: seq<string>
    /** Every file id downloaded so far, oldest first. */
    ghost var downloads: seq<string>

    ghost predicate Valid()
      reads this
    {
      && |entries| <= MAX_ENTRIES
      && Distinct(entries)
      && (forall k :: k in memCache <==> k in entries)
      && entries == Latest(downloads)
    }

    /** The bots are registered by the integration's setup, which is not part of this model. */
    constructor (bots: map<string, Bot>)
      ensures Valid()
      ensures this.bots == bots && memCache == map[] && entries == [] && downloads == []
    {
      this.bots := bots;
      memCache := map[];
      entries := [];
      downloads := [];
    }

    /**
     * `_download_file_id`: download through the named bot and cache the result,
     * evicting the oldest entry when the cache is full. Only called on a miss.
     */
    method DownloadFileId(media: MediaSourceOptions, download: (Bot, string) -> Option<seq<byte>>)
      returns (r: Result<string, Error>)
      requires Valid()
      requires media.fileId !in memCache
      modifies this`memCache, this`entries, this`downloads
      ensures Valid()
      ensures media.botName !in bots ==>
        r == Err(UnknownBot(media.botName)) && memCache == old(memCache) && entries == old(entries)
      ensures media.botName in bots && download(bots[media.botName], media.fileId).None? ==>
        r == Err(DownloadFailed) && memCache == old(memCache) && entries == old(entries)
      ensures r.Err? ==> downloads == old(downloads)
      ensures media.botName in bots && download(bots[media.botName], media.fileId).Some? ==>
        var data := download(bots[media.botName], media.fileId).value;
        var full := |old(entries)| == MAX_ENTRIES;
        && r == Ok(media.fileId)
        && entries == (if full then old(entries)[1..] else old(entries)) + [media.fileId]
        && memCache == (if full then old(memCache) - {old(entries)[0]} else old(memCache))
                         [media.fileId := (media.mimeType, data)]
        && downloads == old(downloads) + [media.fileId]
    {
      if media.botName !in bots {
        return Err(UnknownBot(media.botName));
      }
      var bot := bots[media.botName];
      var fetched := download(bot, media.fileId);
      if fetched.None? {
        return Err(DownloadFailed);
      }
      var mimeType := media.mimeType;
      LatestAppend(downloads, media.fileId);
      if |entries| == MAX_ENTRIES {
        OldestEvicted(downloads, media.fileId);
        var toRemove := entries[0];
        entries := entries[1..];
        memCache := memCache - {toRemove};
      }
      entries := entries + [media.fileId];
      memCache := memCache[media.fileId := (mimeType, fetched.value)];
      downloads := downloads + [media.fileId];
      r := Ok(media.fileId);
    }

    /** `async_get_url`: the proxy URL of the file, downloading it first on a miss. */
    method GetUrl(media: MediaSourceOptions, baseUrl: string, download: (Bot, string) -> Option<seq<byte>>)
      returns (r: Result<string, Error>)
      requires Valid()
      modifies this`memCache, this`entries, this`downloads
      ensures Valid()
      ensures r.Ok? ==> r.value == baseUrl + PROXY_PATH + media.fileId
      ensures r.Ok? ==> media.fileId in memCache
      // a hit downloads nothing and does not refresh the entry's place in the order
      ensures media.fileId in old(memCache) ==>
        && r == Ok(baseUrl + PROXY_PATH + media.fileId)
        && memCache == old(memCache) && entries == old(entries) && downloads == old(downloads)
      ensures media.fileId !in old(memCache) && media.botName !in bots ==> r == Err(UnknownBot(media.botName))
      ensures media.fileId !in old(memCache) && media.botName in bots && download(bots[media.botName], media.fileId).None? ==>
        r == Err(DownloadFailed)
      ensures media.fileId !in old(memCache) ==>
        && (r.Ok? <==> media.botName in bots && download(bots[media.botName], media.fileId).Some?)
        && (r.Err? ==> memCache == old(memCache) && entries == old(entries) && downloads == old(downloads))
        && (r.Ok? ==>
              var data := download(bots[media.botName], media.fileId).value;
              var full := |old(entries)| == MAX_ENTRIES;
              && entries == (if full then old(entries)[1..] else old(entries)) + [media.fileId]
              && memCache == (if full then old(memCache) - {old(entries)[0]} else old(memCache))
                               [media.fileId := (media.mimeType, data)]
              && downloads == old(downloads) + [media.fileId])
    {
      var filename := media.fileId;
      if filename !in memCache {
        var downloaded := DownloadFileId(media, download);
        if downloaded.Err? {
          return Err(downloaded.error);
        }
        filename := downloaded.value;
      }
      r := Ok(baseUrl + PROXY_PATH + filename);
    }

    /** `async_read_telegram_file`: the cached file, or Unresolvable. */
    method ReadTelegramFile(filename: string) returns (r: Result<(string, seq<byte>), Error>)
      ensures filename in memCache ==> r == Ok(memCache[filename])
      ensures filename !in memCache ==> r == Err(Unresolvable(KeyErrorText(filename)))
    {
      if filename !in memCache {
        return Err(Unresolvable(KeyErrorText(filename)));
      }
      r := Ok(memCache[filename]);
    }
  }

  // ---------------------------------------------------------------------------
  // Media source identifiers

  /** A media source identifier once parsed as a URL: its path and its query. */
  datatype MediaSourceId = MediaSourceId(path: string, query: map<string, string>)

  /** The last segment of a URL path (`URL.name`): what follows the last '/'. */
  function LastSegment(p: string): (r: string)
    ensures '/' !in r
    ensures |r| <= |p| && r == p[|p| - |r|..]
    ensures |r| < |p| ==> p[|p| - |r| - 1] == '/'
    decreases |p|
  {
    if '/' in p then LastSegment(p[1..]) else p
  }

  /** `generate_media_source_id`, before URL encoding: the file id as path, the other two as query. */
  function GenerateMediaSourceId(fileId: string, mimeType: string, botName: string): (id: MediaSourceId)
    ensures id.path == fileId
    ensures id.query.Keys == {MIME_TYPE, BOT_NAME}
    ensures id.query[MIME_TYPE] == mimeType && id.query[BOT_NAME] == botName
  {
    MediaSourceId(fileId, map[MIME_TYPE := mimeType, BOT_NAME := botName])
  }

  /** `media_source_id_to_kwargs`: both query fields are required, the mime type is looked up first. */
  function MediaSourceIdToKwargs(id: MediaSourceId): (r: Result<MediaSourceOptions, Error>)
    ensures r.Ok? <==> MIME_TYPE in id.query && BOT_NAME in id.query
    ensures r.Ok? ==> r.value == MediaSourceOptions(LastSegment(id.path), id.query[MIME_TYPE], id.query[BOT_NAME])
    ensures MIME_TYPE !in id.query ==> r == Err(Unresolvable(NO_FIELD + KeyErrorText(MIME_TYPE)))
    ensures MIME_TYPE in id.query && BOT_NAME !in id.query ==>
      r == Err(Unresolvable(NO_FIELD + KeyErrorText(BOT_NAME)))
  {
    var options := id.query;
    if MIME_TYPE !in options then Err(Unresolvable(NO_FIELD + KeyErrorText(MIME_TYPE)))
    else if BOT_NAME !in options then Err(Unresolvable(NO_FIELD + KeyErrorText(BOT_NAME)))
    else Ok(MediaSourceOptions(LastSegment(id.path), options[MIME_TYPE], options[BOT_NAME]))
  }

  /** A generated identifier resolves back to its options, for a file id without '/'. */
  lemma KwargsRoundTrip(fileId: string, mimeType: string, botName: string)
    requires '/' !in fileId
    ensures MediaSourceIdToKwargs(GenerateMediaSourceId(fileId, mimeType, botName))
            == Ok(MediaSourceOptions(fileId, mimeType, botName))
  {
  }
}
