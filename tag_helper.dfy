/**
 * Reading Spotify ids embedded in a file's tags. The tag reader's
 * additional fields are a map from field name to value; the rest of the
 * tag reader is not modelled.
 */
module Tags {
  import opened Wrappers
  import opened Text
  import opened Positional
  import opened SpotifyIds
  import Constants

  type Fields = map<string, string>

  /** The ids found in one file's tags. */
  datatype EmbeddedIds = EmbeddedIds(
    track: Option<SpotifyId>,
    album: Option<SpotifyId>,
    artist: seq<SpotifyId>,
    albumArtist: seq<SpotifyId>)

  const TrackIdKey: string := "SPOTIFY_ID"
  const UrlKey: string := "URL"
  const AlbumIdKey: string := "SPOTIFY_ALBUM_ID"
  const ArtistIdKey: string := "SPOTIFY_ARTIST_ID"
  const AlbumArtistIdKey: string := "SPOTIFY_ALBUM_ARTIST_ID"

  /** The multi-value separator of the tag reader, U+001F. */
  const Separator: char := '\U{001F}'

  const TrackIdPrefix: string := Constants.ProviderTrack + ":"
  const AlbumIdPrefix: string := Constants.ProviderAlbum + ":"
  const ArtistIdPrefix: string := Constants.ProviderArtist + ":"
  const TrackUrlPrefix: string := Constants.OpenUrl + "/track/"

  // ---------------------------------------------------------------- field lookup

  /** `GetMkaFallbackKey`: `"track."` and the key trimmed, with spaces as underscores, in lower case. */
  function MkaFallbackKey(key: string): string {
    if IsNullOrWhiteSpace(key) then key
    else "track." + ToLowerInvariant(ReplaceChar(Trim(key), ' ', '_'))
  }

  /**
   * A blank key is its own fallback; any other key's fallback is
   * `"track."` followed by one character per character of the trimmed key,
   * with no space and no upper-case ASCII letter among them.
   */
  lemma FallbackKeyShape(key: string)
    ensures IsNullOrWhiteSpace(key) ==> MkaFallbackKey(key) == key
    ensures !IsNullOrWhiteSpace(key) ==>
      var r := MkaFallbackKey(key);
      |r| == 6 + |Trim(key)| && r[..6] == "track."
      && forall k :: 6 <= k < |r| ==> r[k] != ' ' && !('A' <= r[k] <= 'Z')
  {
  }

  /** A key without spaces or white space at its ends falls back to `"track."` and its lower-case form. */
  lemma PlainFallbackKey(key: string)
    requires |key| > 0 && !IsWhiteSpace(key[0]) && !IsWhiteSpace(key[|key| - 1]) && ' ' !in key
    ensures MkaFallbackKey(key) == "track." + ToLowerInvariant(key)
  {
    TrimIdle(key);
    assert ReplaceChar(key, ' ', '_') == key;
  }

  /** `TryGetAdditionalFieldWithFallback`: the exact key, else the fallback key. */
  function FieldWithFallback(fields: Fields, key: string): (r: Option<string>)
    ensures r.None? <==> key !in fields && MkaFallbackKey(key) !in fields
    ensures key in fields ==> r == Some(fields[key])
    ensures key !in fields && MkaFallbackKey(key) in fields ==> r == Some(fields[MkaFallbackKey(key)])
  {
    if key in fields then Some(fields[key])
    else if MkaFallbackKey(key) in fields then Some(fields[MkaFallbackKey(key)])
    else None
  }

  /**
   * `GetSanitizedStringTag`: null for a missing or empty value, otherwise
   * the value up to its first NUL character.
   */
  function SanitizedStringTag(tag: Option<string>): (r: Option<string>)
    ensures r.None? <==> tag.None? || tag.value == ""
    ensures r.Some? ==> StartsWith(tag.value, r.value) && '\0' !in r.value
    ensures r.Some? && |r.value| < |tag.value| ==> tag.value[|r.value|] == '\0'
  {
    if tag.None? || tag.value == "" then None else Some(TruncateAtNull(tag.value))
  }

  /**
   * `TryGetSanitizedAdditionalFields` as written: the flag says whether a
   * field was found, the value is the sanitized value. For a field that is
   * present but empty the flag is true and the value null.
   */
  function SanitizedFieldAsWritten(fields: Fields, key: string): (r: (bool, Option<string>))
    ensures r.0 <==> FieldWithFallback(fields, key).Some?
    ensures r.0 && r.1.None? <==> FieldWithFallback(fields, key) == Some("")
  {
    var value := FieldWithFallback(fields, key);
    (value.Some?, SanitizedStringTag(value))
  }

  /**
   * The lookup the callers rely on, that a found field has a value: a
   * field counts as present only when its sanitized value is non-null.
   */
  function SanitizedField(fields: Fields, key: string): (r: Option<string>)
    ensures r.None? <==> FieldWithFallback(fields, key).None? || FieldWithFallback(fields, key) == Some("")
    ensures r.Some? ==> StartsWith(FieldWithFallback(fields, key).value, r.value) && '\0' !in r.value
    ensures r == SanitizedFieldAsWritten(fields, key).1
  {
    var (found, value) := SanitizedFieldAsWritten(fields, key);
    if found then value else None
  }

  /** A value is read up to its first NUL: clean text followed by a NUL and anything gives the clean text. */
  lemma NulTruncated(fields: Fields, key: string, clean: string, garbage: string)
    requires key in fields && fields[key] == clean + ['\0'] + garbage && '\0' !in clean
    ensures SanitizedField(fields, key) == Some(clean)
  {
    TruncateAtNullClean(clean, garbage);
  }

  // ---------------------------------------------------------------- ids from values

  /** The id a value holds when it is the prefix followed by a valid base-62 id. */
  function PrefixedId(value: string, prefix: string): (r: Option<SpotifyId>)
    ensures r.Some? <==> StartsWith(value, prefix) && ParseBase62(value[|prefix|..]).Success?
    ensures r.Some? ==> value == prefix + Base62(r.value.id)
  {
    if StartsWith(value, prefix) then
      var parsed := ParseBase62(value[|prefix|..]);
      if parsed.Success? then
        Base62OfParseBase62(value[|prefix|..]);
        assert value == prefix + value[|prefix|..];
        Some(parsed.value)
      else None
    else None
  }

  /** A prefix followed by the base-62 form of an id holds that id. */
  lemma PrefixedIdOfBase62(prefix: string, id: SpotifyId)
    ensures PrefixedId(prefix + Base62(id.id), prefix) == Some(id)
  {
    var value := prefix + Base62(id.id);
    assert value[..|prefix|] == prefix && value[|prefix|..] == Base62(id.id);
    ParseBase62OfBase62(id.id);
  }

  /** The track id of the `SPOTIFY_ID` field. */
  function TrackTagId(fields: Fields): Option<SpotifyId> {
    match SanitizedField(fields, TrackIdKey)
    case None => None
    case Some(v) => PrefixedId(v, TrackIdPrefix)
  }

  /** The track id after the `URL` field, which is read only once a track id was found, and then replaces it. */
  function TrackIdOf(fields: Fields): Option<SpotifyId> {
    var first := TrackTagId(fields);
    if first.None? then None
    else match SanitizedField(fields, UrlKey)
      case Some(url) =>
        if StartsWith(url, TrackUrlPrefix) then ParseBase62(url[|TrackUrlPrefix|..]).ToOption() else first
      case None => first
  }

  function AlbumIdOf(fields: Fields): Option<SpotifyId> {
    match SanitizedField(fields, AlbumIdKey)
    case None => None
    case Some(v) => PrefixedId(v, AlbumIdPrefix)
  }

  /** The entries of an artist field: split on U+001F and trimmed, or the whole value untrimmed. */
  function ArtistEntries(value: string): (entries: seq<string>)
    ensures |entries| > 0
  {
    if Separator in value then TrimAll(Split(value, Separator)) else [value]
  }

  /** The ids of the entries that carry the artist prefix and parse, in entry order. */
  function ArtistEntryIds(entries: seq<string>): (ids: seq<SpotifyId>)
    ensures |ids| <= |entries|
    ensures forall id :: id in ids ==> ArtistIdPrefix + Base62(id.id) in entries
  {
    if |entries| == 0 then []
    else
      var last := entries[|entries| - 1];
      assert last in entries;
      ArtistEntryIds(entries[..|entries| - 1]) + PrefixedId(last, ArtistIdPrefix).ToSeq()
  }

  /** An artist or album-artist field's ids; both use the artist prefix. */
  function ArtistIdsOf(fields: Fields, key: string): seq<SpotifyId> {
    match SanitizedField(fields, key)
    case None => []
    case Some(v) => ArtistEntryIds(ArtistEntries(v))
  }

  /** What `ExtractSpotifyIds` returns for a file with these fields. */
  function EmbeddedIdsOf(fields: Fields): EmbeddedIds {
    EmbeddedIds(TrackIdOf(fields), AlbumIdOf(fields), ArtistIdsOf(fields, ArtistIdKey), ArtistIdsOf(fields, AlbumArtistIdKey))
  }

  // ---------------------------------------------------------------- extraction

  /** `ExtractSpotifyIds`, after the tag reader: the field checks in the order of the C# code. */
  method ExtractSpotifyIds(fields: Fields) returns (ids: EmbeddedIds)
    ensures ids == EmbeddedIdsOf(fields)
  {
    var trackId: Option<SpotifyId> := None;
    var albumId: Option<SpotifyId> := None;
    var prefixed := SanitizedField(fields, TrackIdKey);
    if prefixed.Some? {
      trackId := ReadPrefixedId(prefixed.value, TrackIdPrefix);
    }
    if trackId.Some? {
      var url := SanitizedField(fields, UrlKey);
      if url.Some? && StartsWith(url.value, TrackUrlPrefix) {
        trackId := TryFromBase62(url.value[|TrackUrlPrefix|..]);
      }
    }
    prefixed := SanitizedField(fields, AlbumIdKey);
    if prefixed.Some? {
      albumId := ReadPrefixedId(prefixed.value, AlbumIdPrefix);
    }
    var artistIds := CollectArtistIds(fields, ArtistIdKey);
    var albumArtistIds := CollectArtistIds(fields, AlbumArtistIdKey);
    ids := EmbeddedIds(trackId, albumId, artistIds, albumArtistIds);
  }

  /** The check made for every field and entry: the prefix, then `TryFromBase62` of the rest. */
  method ReadPrefixedId(value: string, prefix: string) returns (r: Option<SpotifyId>)
    ensures r == PrefixedId(value, prefix)
  {
    r := None;
    if StartsWith(value, prefix) {
      r := TryFromBase62(value[|prefix|..]);
    }
  }

  /** One artist field: the entries of a multi-valued field, or the single value. */
  method CollectArtistIds(fields: Fields, key: string) returns (ids: seq<SpotifyId>)
    ensures ids == ArtistIdsOf(fields, key)
  {
    ids := [];
    var value := SanitizedField(fields, key);
    if value.Some? {
      if Separator in value.value {
        ids := CollectEntries(TrimAll(Split(value.value, Separator)));
      } else {
        var artistId := ReadPrefixedId(value.value, ArtistIdPrefix);
        ids := artistId.ToSeq();
      }
    }
  }

  /** The entry loop: each entry with the artist prefix whose id parses is appended. */
  method CollectEntries(tags: seq<string>) returns (ids: seq<SpotifyId>)
    ensures ids == ArtistEntryIds(tags)
  {
    ids := [];
    for i := 0 to |tags|
      invariant ids == ArtistEntryIds(tags[..i])
    {
      var artistId := ReadPrefixedId(tags[i], ArtistIdPrefix);
      assert tags[..i + 1][..i] == tags[..i];
      ids := ids + artistId.ToSeq();
    }
    assert tags[..|tags|] == tags;
  }

  // ---------------------------------------------------------------- properties

  /** The entries are read in order: the ids of two runs of entries are the ids of each, concatenated. */
  lemma {:induction false} ArtistEntryIdsAppend(a: seq<string>, b: seq<string>)
    ensures ArtistEntryIds(a + b) == ArtistEntryIds(a) + ArtistEntryIds(b)
    decreases |b|
  {
    if |b| == 0 {
      assert a + b == a;
    } else {
      var b' := b[..|b| - 1];
      assert (a + b)[..|a + b| - 1] == a + b';
      assert (a + b)[|a + b| - 1] == b[|b| - 1];
      ArtistEntryIdsAppend(a, b');
    }
  }

  /** Base-62 text holds no white space and no separator. */
  lemma Base62Plain(id: SpotifyId)
    ensures forall k :: 0 <= k < |Base62(id.id)| ==> !IsWhiteSpace(Base62(id.id)[k]) && Base62(id.id)[k] != Separator && Base62(id.id)[k] != '\0'
  {
    var ds := BeDigits(62, id.id, SizeBase62);
    DigitStringValues(ds);
  }

  /** A prefixed id has no separator, no NUL and no white space at its ends, for a prefix like that. */
  lemma FormattedPlain(prefix: string, id: SpotifyId)
    requires |prefix| > 0 && !IsWhiteSpace(prefix[0]) && Separator !in prefix && '\0' !in prefix
    ensures Separator !in Constants.FormatId(prefix, id) && '\0' !in Constants.FormatId(prefix, id)
    ensures Trim(Constants.FormatId(prefix, id)) == Constants.FormatId(prefix, id)
    ensures Constants.FormatId(prefix, id) == prefix + ":" + Base62(id.id)
  {
    var s := Constants.FormatId(prefix, id);
    var p := prefix + ":";
    var b := Base62(id.id);
    Base62Plain(id);
    assert Separator !in b && '\0' !in b && !IsWhiteSpace(b[|b| - 1]);
    assert s == p + b && s[0] == prefix[0] && s[|s| - 1] == b[|b| - 1];
    TrimIdle(s);
  }

  lemma FormattedArtistPlain(id: SpotifyId)
    ensures Separator !in Constants.FormatArtistId(id) && '\0' !in Constants.FormatArtistId(id)
    ensures Trim(Constants.FormatArtistId(id)) == Constants.FormatArtistId(id)
    ensures Constants.FormatArtistId(id) == ArtistIdPrefix + Base62(id.id)
  {
    FormattedPlain(Constants.ProviderArtist, id);
  }

  /** The prefixed forms of some artist ids. */
  function FormattedArtists(ids: seq<SpotifyId>): (entries: seq<string>)
    ensures |entries| == |ids| && forall k :: 0 <= k < |ids| ==> entries[k] == Constants.FormatArtistId(ids[k])
  {
    seq(|ids|, k requires 0 <= k < |ids| => Constants.FormatArtistId(ids[k]))
  }

  /** The prefixed forms of some artist ids, as entries, give back the ids in order. */
  lemma {:induction false} FormattedArtistEntries(ids: seq<SpotifyId>)
    ensures ArtistEntryIds(FormattedArtists(ids)) == ids
    decreases |ids|
  {
    if |ids| > 0 {
      var n := |ids| - 1;
      assert ids == ids[..n] + [ids[n]];
      var entries := FormattedArtists(ids);
      FormattedArtistsPrefix(ids, n);
      FormattedArtistEntries(ids[..n]);
      FormattedArtistEntry(ids[n]);
      assert entries[..|entries| - 1] == entries[..n];
      assert PrefixedId(entries[n], ArtistIdPrefix).ToSeq() == [ids[n]];
    }
  }

  /** The prefixed forms of a prefix of the ids are that prefix of their prefixed forms. */
  lemma FormattedArtistsPrefix(ids: seq<SpotifyId>, n: nat)
    requires n <= |ids|
    ensures FormattedArtists(ids)[..n] == FormattedArtists(ids[..n])
  {
  }

  /** One artist-formatted id holds that id. */
  lemma FormattedArtistEntry(id: SpotifyId)
    ensures PrefixedId(Constants.FormatArtistId(id), ArtistIdPrefix) == Some(id)
  {
    FormattedArtistPlain(id);
    PrefixedIdOfBase62(ArtistIdPrefix, id);
  }

  /**
   * A multi-valued artist field written as two or more prefixed ids joined
   * by the separator reads back as exactly those ids, in order.
   */
  lemma MultiValueArtists(key: string, ids: seq<SpotifyId>)
    requires |ids| >= 2
    ensures ArtistIdsOf(map[key := Join(FormattedArtists(ids), Separator)], key) == ids
  {
    var entries := FormattedArtists(ids);
    var value := Join(entries, Separator);
    forall k | 0 <= k < |entries| ensures Separator !in entries[k] && '\0' !in entries[k] && Trim(entries[k]) == entries[k] {
      FormattedArtistPlain(ids[k]);
    }
    SplitJoin(entries, Separator);
    assert TrimAll(entries) == entries;
    JoinHasSeparator(entries, Separator);
    JoinAvoids(entries, Separator, '\0');
    TruncateAtNullClean(value, []);
    FormattedArtistEntries(ids);
  }

  /** A join of two or more pieces contains the separator. */
  lemma JoinHasSeparator(pieces: seq<string>, separator: char)
    requires |pieces| >= 2
    ensures separator in Join(pieces, separator)
  {
    var s := Join(pieces, separator);
    assert s == pieces[0] + [separator] + Join(pieces[1..], separator);
    assert s[|pieces[0]|] == separator;
  }

  /** A character that is neither the separator nor in any piece is not in their join. */
  lemma {:induction false} JoinAvoids(pieces: seq<string>, separator: char, c: char)
    requires |pieces| > 0 && c != separator
    requires forall k :: 0 <= k < |pieces| ==> c !in pieces[k]
    ensures c !in Join(pieces, separator)
    decreases |pieces|
  {
    if |pieces| > 1 {
      JoinAvoids(pieces[1..], separator, c);
      assert c !in pieces[0];
    }
  }

  /** A single artist value is not trimmed: with a leading space it yields no id. */
  lemma SingleValueNotTrimmed(key: string, id: SpotifyId)
    ensures ArtistIdsOf(map[key := " " + Constants.FormatArtistId(id)], key) == []
  {
    var f := Constants.FormatArtistId(id);
    FormattedArtistPlain(id);
    var single := " " + f;
    assert Separator !in single && '\0' !in single;
    TruncateAtNullClean(single, []);
    assert SanitizedField(map[key := single], key) == Some(single);
    assert ArtistEntries(single) == [single];
    assert single[0] == ' ' != ArtistIdPrefix[0];
    assert PrefixedId(single, ArtistIdPrefix) == None;
    assert ArtistEntryIds([single]) == ArtistEntryIds([]) + [];
  }

  /** The same entry in a multi-valued field is trimmed and kept. */
  lemma ListedValueTrimmed(key: string, id: SpotifyId)
    ensures ArtistIdsOf(map[key := " " + Constants.FormatArtistId(id) + [Separator]], key) == [id]
  {
    var f := Constants.FormatArtistId(id);
    FormattedArtistPlain(id);
    var single := " " + f;
    var multi := single + [Separator];
    assert Separator !in single && '\0' !in multi;
    TruncateAtNullClean(multi, []);
    assert SanitizedField(map[key := multi], key) == Some(multi);
    TrailingSeparator(single);
    LeadingSpaceTrimmed(f);
    TrailingEmptyEntry(f, id);
  }

  /** A value with one trailing separator has two entries: the trimmed value and an empty one. */
  lemma TrailingSeparator(single: string)
    requires Separator !in single
    ensures ArtistEntries(single + [Separator]) == [Trim(single), ""]
  {
    var multi := single + [Separator];
    assert Join([single, ""], Separator) == multi;
    SplitJoin([single, ""], Separator);
    assert multi[|single|] == Separator;
  }

  lemma LeadingSpaceTrimmed(f: string)
    requires Trim(f) == f && |f| > 0 && !IsWhiteSpace(f[0])
    ensures Trim(" " + f) == f
  {
    assert (" " + f)[1..] == f;
  }

  /** An empty entry after a prefixed artist id adds nothing. */
  lemma TrailingEmptyEntry(f: string, id: SpotifyId)
    requires f == ArtistIdPrefix + Base62(id.id)
    ensures ArtistEntryIds([f, ""]) == [id]
  {
    PrefixedIdOfBase62(ArtistIdPrefix, id);
    assert [f, ""][..1] == [f];
    assert ArtistEntryIds([f]) == [] + [id];
  }

  /** The fallback of a key that does not start with white space starts with `t` and is longer than 6. */
  lemma FallbackStartsWithT(key: string)
    requires |key| > 0 && !IsWhiteSpace(key[0])
    ensures |MkaFallbackKey(key)| > 6 && MkaFallbackKey(key)[0] == 't'
  {
    assert !IsNullOrWhiteSpace(key);
    var t := ToLowerInvariant(ReplaceChar(Trim(key), ' ', '_'));
    TrimSlice(key);
    assert |Trim(key)| > 0 by {
      assert !IsWhiteSpace(key[0]);
    }
    assert MkaFallbackKey(key) == "track." + t;
  }

  /** The keys the extraction reads are distinct, also from each other's fallback keys. */
  lemma KeysApart()
    ensures TrackIdKey != UrlKey && MkaFallbackKey(TrackIdKey) != UrlKey && MkaFallbackKey(UrlKey) != TrackIdKey
    ensures AlbumIdKey != TrackIdKey && MkaFallbackKey(AlbumIdKey) != TrackIdKey
    ensures ArtistIdKey != TrackIdKey && MkaFallbackKey(ArtistIdKey) != TrackIdKey
    ensures AlbumArtistIdKey != TrackIdKey && MkaFallbackKey(AlbumArtistIdKey) != TrackIdKey
  {
    assert TrackIdKey[0] == 'S' && UrlKey[0] == 'U' && AlbumIdKey[0] == 'S' && ArtistIdKey[0] == 'S' && AlbumArtistIdKey[0] == 'S';
    FallbackStartsWithT(TrackIdKey);
    FallbackStartsWithT(UrlKey);
    FallbackStartsWithT(AlbumIdKey);
    FallbackStartsWithT(ArtistIdKey);
    FallbackStartsWithT(AlbumArtistIdKey);
    assert |AlbumIdKey| != |TrackIdKey|;
  }

  /** A `SPOTIFY_ID` field holding a prefixed track id gives that id before the `URL` field is read. */
  lemma TrackTagOfFormatted(fields: Fields, id: SpotifyId)
    requires TrackIdKey in fields && fields[TrackIdKey] == Constants.FormatTrackId(id)
    ensures TrackTagId(fields) == Some(id)
  {
    var f := Constants.FormatTrackId(id);
    FormattedPlain(Constants.ProviderTrack, id);
    TruncateAtNullClean(f, []);
    PrefixedIdOfBase62(TrackIdPrefix, id);
  }

  /** A `SPOTIFY_ID` field holding a prefixed track id, and no `URL` field, gives that id. */
  lemma TrackIdFromTag(id: SpotifyId)
    ensures EmbeddedIdsOf(map[TrackIdKey := Constants.FormatTrackId(id)]).track == Some(id)
  {
    var fields := map[TrackIdKey := Constants.FormatTrackId(id)];
    TrackTagOfFormatted(fields, id);
    KeysApart();
    assert SanitizedField(fields, UrlKey) == None;
  }

  lemma TrackUrlPrefixPlain()
    ensures '\0' !in TrackUrlPrefix
  {
    assert '\0' !in Constants.OpenUrl;
    assert '\0' !in "/track/";
  }

  /** A track link read from a `URL` field: the text after the link prefix. */
  lemma TrackUrlValue(fields: Fields, other: SpotifyId, suffix: string)
    requires '\0' !in suffix
    requires UrlKey in fields && fields[UrlKey] == TrackUrlPrefix + Base62(other.id) + suffix
    ensures SanitizedField(fields, UrlKey) == Some(fields[UrlKey])
    ensures StartsWith(fields[UrlKey], TrackUrlPrefix)
    ensures fields[UrlKey][|TrackUrlPrefix|..] == Base62(other.id) + suffix
  {
    var url := fields[UrlKey];
    Base62Plain(other);
    TrackUrlPrefixPlain();
    assert '\0' !in Base62(other.id);
    TruncateAtNullClean(url, []);
    assert url[..|TrackUrlPrefix|] == TrackUrlPrefix;
  }

  /**
   * The `URL` field replaces the track id: a track link to another id gives
   * that id, and a link with anything after the id gives no id at all.
   */
  lemma UrlReplacesTrackId(id: SpotifyId, other: SpotifyId, suffix: string)
    requires '\0' !in suffix
    ensures
      var fields := map[TrackIdKey := Constants.FormatTrackId(id), UrlKey := TrackUrlPrefix + Base62(other.id) + suffix];
      EmbeddedIdsOf(fields).track == (if suffix == [] then Some(other) else None)
  {
    var fields := map[TrackIdKey := Constants.FormatTrackId(id), UrlKey := TrackUrlPrefix + Base62(other.id) + suffix];
    KeysApart();
    TrackTagOfFormatted(fields, id);
    TrackUrlValue(fields, other, suffix);
    ParseBase62OfBase62(other.id);
    if suffix == [] {
      assert Base62(other.id) + suffix == Base62(other.id);
    }
  }

  /** The `URL` field is never read without a track id from `SPOTIFY_ID`: on its own it gives nothing. */
  lemma UrlNeedsTrackId(fields: Fields, url: string)
    requires TrackTagId(fields).None?
    ensures EmbeddedIdsOf(fields[UrlKey := url]).track == None
  {
    KeysApart();
    assert SanitizedField(fields[UrlKey := url], TrackIdKey) == SanitizedField(fields, TrackIdKey);
  }

  /** An album-artist field reads artist-prefixed ids, not album-prefixed ones. */
  lemma AlbumArtistPrefix(id: SpotifyId)
    ensures ArtistIdsOf(map[AlbumArtistIdKey := Constants.FormatArtistId(id)], AlbumArtistIdKey) == [id]
    ensures ArtistIdsOf(map[AlbumArtistIdKey := Constants.FormatAlbumId(id)], AlbumArtistIdKey) == []
  {
    FormattedArtistPlain(id);
    FormattedPlain(Constants.ProviderAlbum, id);
    SingleArtistField(AlbumArtistIdKey, Constants.FormatArtistId(id));
    SingleArtistField(AlbumArtistIdKey, Constants.FormatAlbumId(id));
    PrefixedIdOfBase62(ArtistIdPrefix, id);
    AlbumIdNotArtist(id);
  }

  /** A field holding one clean value without the separator gives the id that value holds, if any. */
  lemma SingleArtistField(key: string, value: string)
    requires Separator !in value && '\0' !in value
    ensures ArtistIdsOf(map[key := value], key) == PrefixedId(value, ArtistIdPrefix).ToSeq()
  {
    TruncateAtNullClean(value, []);
    assert [value][..0] == [];
  }

  /** An album-prefixed id does not carry the artist prefix. */
  lemma AlbumIdNotArtist(id: SpotifyId)
    ensures !StartsWith(Constants.FormatAlbumId(id), ArtistIdPrefix)
  {
    var b := Constants.FormatAlbumId(id);
    assert b[9] == Constants.ProviderAlbum[9] == 'l';
    assert ArtistIdPrefix[9] == 'r';
  }

  // ---------------------------------------------------------------- empty fields

  /** The dereference of a null string. */
  datatype TagFault = NullDereference

  /** A field found with an empty value: the lookup as written reports it found, with a null value. */
  predicate FoundEmpty(fields: Fields, key: string) {
    FieldWithFallback(fields, key) == Some("")
  }

  /**
   * A lookup whose caller calls a method on the value once the field is
   * found, as written: a field found with an empty value is dereferenced
   * as null; otherwise the caller sees the value of the corrected lookup.
   */
  function UsedFieldAsWritten(fields: Fields, key: string): (r: Result<Option<string>, TagFault>)
    ensures r.Failure? <==> FoundEmpty(fields, key)
    ensures r.Success? ==> r.value == SanitizedField(fields, key)
  {
    var (found, value) := SanitizedFieldAsWritten(fields, key);
    if found && value.None? then Failure(NullDereference) else Success(value)
  }

  /**
   * The `SPOTIFY_ID` check as written: the found flag guards a call on the
   * value, which is null when the field is present but empty.
   */
  function TrackTagIdAsWritten(fields: Fields): (r: Result<Option<SpotifyId>, TagFault>)
    ensures r.Failure? <==> FieldWithFallback(fields, TrackIdKey) == Some("")
    ensures r.Success? ==> r.value == TrackTagId(fields)
  {
    match UsedFieldAsWritten(fields, TrackIdKey)
    case Failure(e) => Failure(e)
    case Success(value) => Success(if value.Some? then PrefixedId(value.value, TrackIdPrefix) else None)
  }

  /** The `URL` check as written: only once `SPOTIFY_ID` gave a track id is the field looked up and its value used. */
  function TrackIdAsWritten(fields: Fields): (r: Result<Option<SpotifyId>, TagFault>)
    ensures r.Failure? <==> FoundEmpty(fields, TrackIdKey) || (TrackTagId(fields).Some? && FoundEmpty(fields, UrlKey))
    ensures r.Success? ==> r.value == TrackIdOf(fields)
  {
    match TrackTagIdAsWritten(fields)
    case Failure(e) => Failure(e)
    case Success(first) =>
      if first.None? then Success(None)
      else match UsedFieldAsWritten(fields, UrlKey)
        case Failure(e) => Failure(e)
        case Success(url) =>
          Success(if url.Some? && StartsWith(url.value, TrackUrlPrefix) then ParseBase62(url.value[|TrackUrlPrefix|..]).ToOption() else first)
  }

  /** The `SPOTIFY_ALBUM_ID` check as written. */
  function AlbumIdAsWritten(fields: Fields): (r: Result<Option<SpotifyId>, TagFault>)
    ensures r.Failure? <==> FoundEmpty(fields, AlbumIdKey)
    ensures r.Success? ==> r.value == AlbumIdOf(fields)
  {
    match UsedFieldAsWritten(fields, AlbumIdKey)
    case Failure(e) => Failure(e)
    case Success(value) => Success(if value.Some? then PrefixedId(value.value, AlbumIdPrefix) else None)
  }

  /** An artist field's check as written: a found field's value is searched for the separator. */
  function ArtistIdsAsWritten(fields: Fields, key: string): (r: Result<seq<SpotifyId>, TagFault>)
    ensures r.Failure? <==> FoundEmpty(fields, key)
    ensures r.Success? ==> r.value == ArtistIdsOf(fields, key)
  {
    match UsedFieldAsWritten(fields, key)
    case Failure(e) => Failure(e)
    case Success(value) => Success(if value.Some? then ArtistEntryIds(ArtistEntries(value.value)) else [])
  }

  /**
   * `ExtractSpotifyIds` as written: it throws exactly when one of the five
   * fields it uses is found with an empty value (the `URL` field only once
   * a track id was read), and otherwise returns the ids the corrected
   * reading gives.
   */
  function ExtractSpotifyIdsAsWritten(fields: Fields): (r: Result<EmbeddedIds, TagFault>)
    ensures r.Failure? <==>
      FoundEmpty(fields, TrackIdKey) || (TrackTagId(fields).Some? && FoundEmpty(fields, UrlKey))
      || FoundEmpty(fields, AlbumIdKey) || FoundEmpty(fields, ArtistIdKey) || FoundEmpty(fields, AlbumArtistIdKey)
    ensures r.Success? ==> r.value == EmbeddedIdsOf(fields)
  {
    match TrackIdAsWritten(fields)
    case Failure(e) => Failure(e)
    case Success(track) =>
      match AlbumIdAsWritten(fields)
      case Failure(e) => Failure(e)
      case Success(album) =>
        match ArtistIdsAsWritten(fields, ArtistIdKey)
        case Failure(e) => Failure(e)
        case Success(artist) =>
          match ArtistIdsAsWritten(fields, AlbumArtistIdKey)
          case Failure(e) => Failure(e)
          case Success(albumArtist) => Success(EmbeddedIds(track, album, artist, albumArtist))
  }

  /**
   * A file whose `SPOTIFY_ID` field is empty makes the extraction as written
   * dereference null; read as absent, as the lookup's contract intends, the
   * field gives no ids at all.
   */
  lemma EmptyTrackTag()
    ensures TrackTagIdAsWritten(map[TrackIdKey := ""]) == Failure(NullDereference)
    ensures EmbeddedIdsOf(map[TrackIdKey := ""]) == EmbeddedIds(None, None, [], [])
  {
    KeysApart();
  }

  /**
   * A file with a valid `SPOTIFY_ID` field and an empty `URL` field: as
   * written the extraction dereferences null; read as absent, the `URL`
   * field leaves the track id of `SPOTIFY_ID` in place.
   */
  lemma EmptyUrlTag(id: SpotifyId)
    ensures ExtractSpotifyIdsAsWritten(map[TrackIdKey := Constants.FormatTrackId(id), UrlKey := ""]) == Failure(NullDereference)
    ensures EmbeddedIdsOf(map[TrackIdKey := Constants.FormatTrackId(id), UrlKey := ""]).track == Some(id)
  {
    var fields := map[TrackIdKey := Constants.FormatTrackId(id), UrlKey := ""];
    KeysApart();
    TrackTagOfFormatted(fields, id);
    assert FoundEmpty(fields, UrlKey);
  }

  /**
   * A file whose only field is an empty album or artist field: as written
   * the extraction dereferences null; read as absent, the file has no ids.
   */
  lemma EmptyIdTag(key: string)
    requires key == AlbumIdKey || key == ArtistIdKey || key == AlbumArtistIdKey
    ensures ExtractSpotifyIdsAsWritten(map[key := ""]) == Failure(NullDereference)
    ensures EmbeddedIdsOf(map[key := ""]) == EmbeddedIds(None, None, [], [])
  {
    assert FoundEmpty(map[key := ""], key);
    EmptyValueOnly(key, TrackIdKey);
    EmptyValueOnly(key, AlbumIdKey);
    EmptyValueOnly(key, ArtistIdKey);
    EmptyValueOnly(key, AlbumArtistIdKey);
  }

  /** In a file whose one field is empty, no lookup finds a value. */
  lemma EmptyValueOnly(key: string, other: string)
    ensures SanitizedField(map[key := ""], other) == None
  {
    var found := FieldWithFallback(map[key := ""], other);
    assert found == None || found == Some("");
  }
}
