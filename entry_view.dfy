/**
 * The decorated entry record: the accessors that `decorateExtractedFile`
 * installs on every record the worker extracts. `blob` and `getBlobUrl`
 * compute their value on first use and keep it in `_blob` / `_blobUrl`;
 * `readAsString` decodes the buffer on every call (it writes `_string` on the
 * fallback path but never reads it); `readAsJSON` parses the default decoding.
 */
module EntryView {
  import opened Wrappers
  import opened FallbackDecoder

  /** A `Blob` object: an immutable copy of the bytes it was built from. */
  class Blob {
    const bytes: seq<byte>

    constructor (bytes: seq<byte>)
      ensures this.bytes == bytes
    {
      this.bytes := bytes;
    }
  }

  /** A handle returned by `URL.createObjectURL`; `serial` tells handles apart. */
  datatype ObjectUrl = ObjectUrl(serial: nat)

  /** The host's `URL` object: it hands out one new handle per call and remembers the blob. */
  class UrlFactory {
    var created: seq<Blob>

    constructor ()
      ensures created == []
    {
      created := [];
    }

    method CreateObjectUrl(blob: Blob) returns (url: ObjectUrl)
      modifies this
      ensures created == old(created) + [blob]
      ensures url == ObjectUrl(|old(created)|)
    {
      url := ObjectUrl(|created|);
      created := created + [blob];
    }
  }

  /** A `TextDecoder`: given an encoding label and bytes, the decoded text. */
  type Decoder = (string, seq<byte>) -> string

  const DefaultEncoding := "utf-8"

  /** `encoding || 'utf-8'`: an absent or empty label means UTF-8. */
  function EffectiveEncoding(encoding: Option<string>): (chosen: string)
    ensures chosen != ""
    ensures encoding.Some? && encoding.value != "" ==> chosen == encoding.value
    ensures encoding.None? || encoding.value == "" ==> chosen == DefaultEncoding
  {
    if encoding.Some? && encoding.value != "" then encoding.value else DefaultEncoding
  }

  /** What `readAsString` returns: the decoder's text if one exists, else the Latin-1 fallback. */
  function TextOf(encodingLabel: string, decoder: Option<Decoder>, bytes: seq<byte>): string
  {
    match decoder
    case Some(decode) => decode(encodingLabel, bytes)
    case None => Latin1Decode(bytes)
  }

  /** Without a decoder the label plays no part: every label yields the same text. */
  lemma FallbackIgnoresEncoding(first: string, second: string, bytes: seq<byte>)
    ensures TextOf(first, None, bytes) == TextOf(second, None, bytes)
    ensures |TextOf(first, None, bytes)| == |bytes|
  {
  }

  /** One extracted record (name, buffer, size, type) with the caches of its accessors. */
  class Entry {
    const name: string
    const buffer: array<byte>
    const size: nat
    const kind: string

    /** Set once `decorateExtractedFile` has installed the accessors. */
    var decorated: bool
    var blobCache: Option<Blob>
    var blobUrlCache: Option<ObjectUrl>
    var stringCache: Option<string>

    /** How often each constructor ran for this entry. */
    ghost var blobsMade: nat
    ghost var urlsMade: nat

    ghost predicate Valid()
      reads this
    {
      && blobsMade == (if blobCache.Some? then 1 else 0)
      && urlsMade == (if blobUrlCache.Some? then 1 else 0)
      && (blobUrlCache.Some? ==> blobCache.Some?)
    }

    /** A record as the worker delivers it: no accessors, nothing cached. */
    constructor (name: string, buffer: array<byte>, size: nat, kind: string)
      ensures this.name == name && this.buffer == buffer && this.size == size && this.kind == kind
      ensures !decorated && blobCache == None && blobUrlCache == None && stringCache == None
      ensures Valid() && blobsMade == 0 && urlsMade == 0
    {
      this.name, this.buffer, this.size, this.kind := name, buffer, size, kind;
      decorated := false;
      blobCache, blobUrlCache, stringCache := None, None, None;
      blobsMade, urlsMade := 0, 0;
    }

    /** The `blob` getter: build a Blob over the buffer on first access, return the stored one after. */
    method GetBlob() returns (b: Blob)
      requires decorated && Valid()
      modifies this`blobCache, this`blobsMade
      ensures Valid() && blobsMade <= 1
      ensures blobCache == Some(b)
      ensures old(blobCache).Some? ==> b == old(blobCache).value && blobsMade == old(blobsMade)
      ensures old(blobCache).None? ==> fresh(b) && b.bytes == buffer[..] && blobsMade == 1
    {
      if blobCache.Some? {
        b := blobCache.value;
      } else {
        b := new Blob(buffer[..]);
        blobCache := Some(b);
        blobsMade := blobsMade + 1;
      }
    }

    /** `getBlobUrl`: create one object URL for `blob` on first call, return the stored one after. */
    method GetBlobUrl(urls: UrlFactory) returns (url: ObjectUrl)
      requires decorated && Valid()
      modifies this`blobCache, this`blobsMade, this`blobUrlCache, this`urlsMade, urls
      ensures Valid() && blobsMade <= 1 && urlsMade <= 1
      ensures blobUrlCache == Some(url) && blobCache.Some?
      ensures old(blobUrlCache).Some? ==>
        && url == old(blobUrlCache).value
        && blobCache == old(blobCache) && urlsMade == old(urlsMade)
        && urls.created == old(urls.created)
      ensures old(blobUrlCache).None? ==>
        && url == ObjectUrl(|old(urls.created)|)
        && urls.created == old(urls.created) + [blobCache.value]
        && urlsMade == 1
        && (old(blobCache).Some? ==> blobCache == old(blobCache))
        && (old(blobCache).None? ==> fresh(blobCache.value) && blobCache.value.bytes == buffer[..])
    {
      if blobUrlCache.Some? {
        url := blobUrlCache.value;
      } else {
        var b := GetBlob();
        url := urls.CreateObjectUrl(b);
        blobUrlCache := Some(url);
        urlsMade := urlsMade + 1;
      }
    }

    /**
     * `readAsString(encoding)`: decode with the host's decoder when there is
     * one; otherwise run the byte-wise fallback and store its result in
     * `_string`. The stored value is never consulted, so every call decodes.
     */
    method ReadAsString(encoding: Option<string>, decoder: Option<Decoder>) returns (s: string)
      requires decorated
      modifies this`stringCache
      ensures s == TextOf(EffectiveEncoding(encoding), decoder, buffer[..])
      ensures decoder.None? ==> stringCache == Some(s) && |s| == buffer.Length
      ensures decoder.Some? ==> stringCache == old(stringCache)
    {
      var effective := EffectiveEncoding(encoding);
      if decoder.Some? {
        s := decoder.value(effective, buffer[..]);
      } else {
        s := DecodeFallback(buffer);
        stringCache := Some(s);
      }
    }

    /** `readAsJSON`: parse the text that `readAsString()` gives with the default encoding. */
    method ReadAsJson<J>(decoder: Option<Decoder>, parse: string -> Result<J, string>)
      returns (r: Result<J, string>)
      requires decorated
      modifies this`stringCache
      ensures r == parse(TextOf(DefaultEncoding, decoder, buffer[..]))
      ensures decoder.None? ==> r == parse(Latin1Decode(buffer[..]))
      ensures decoder.None? ==> stringCache == Some(Latin1Decode(buffer[..]))
      ensures decoder.Some? ==> stringCache == old(stringCache)
    {
      var text := ReadAsString(None, decoder);
      r := parse(text);
    }
  }

  /** `decorateExtractedFile`: install the accessors on the record itself and return it. */
  method DecorateExtractedFile(file: Entry) returns (r: Entry)
    modifies file`decorated
    ensures r == file && file.decorated
  {
    file.decorated := true;
    r := file;
  }
}
