/**
 * The provider keys under which ids are stored on library items, the
 * prefixed id strings built from them, and the conversion of a protocol
 * date to a UTC date and time.
 */
module Constants {
  import opened Wrappers
  import opened Text
  import SpotifyIds
  import Protocol

  const OpenUrl: string := "https://open.spotify.com"

  const ProviderKey: string := "spotify"
  const AlbumKey: string := "album"
  const ArtistKey: string := "artist"
  const TrackKey: string := "track"

  const ProviderAlbum: string := ProviderKey + ":" + AlbumKey
  const ProviderArtist: string := ProviderKey + ":" + ArtistKey
  const ProviderTrack: string := ProviderKey + ":" + TrackKey

  /** The three provider keys spelled out. */
  lemma ProviderKeyValues()
    ensures ProviderTrack == "spotify:track" && ProviderAlbum == "spotify:album" && ProviderArtist == "spotify:artist"
  {
  }

  /** The three provider keys are pairwise distinct, so ids stored under them never overwrite each other. */
  lemma ProviderKeys()
    ensures ProviderTrack != ProviderAlbum && ProviderTrack != ProviderArtist && ProviderAlbum != ProviderArtist
  {
    assert ProviderTrack[8] == 't' && ProviderAlbum[8] == 'a' && ProviderArtist[9] == 'r' && ProviderAlbum[9] == 'l';
  }

  /** An id written with a prefix: `{prefix}:{id.Base62}`. */
  function FormatId(prefix: string, id: SpotifyIds.SpotifyId): string {
    prefix + ":" + SpotifyIds.Base62(id.id)
  }

  /**
   * A prefixed id is the prefix, a colon and 22 base-62 characters, and
   * cutting off the prefix and the colon gives text that decodes back to
   * the id: the way tags written by this form are read.
   */
  lemma FormatIdRoundTrip(prefix: string, id: SpotifyIds.SpotifyId)
    ensures |FormatId(prefix, id)| == |prefix| + 23
    ensures StartsWith(FormatId(prefix, id), prefix + ":")
    ensures SpotifyIds.ParseBase62(FormatId(prefix, id)[|prefix| + 1..]) == Success(id)
  {
    var s := FormatId(prefix, id);
    assert s[..|prefix| + 1] == prefix + ":";
    assert s[|prefix| + 1..] == SpotifyIds.Base62(id.id);
    SpotifyIds.ParseBase62OfBase62(id.id);
  }

  /** `FormatAlbumId`: 36 characters, `spotify:album:` and text that decodes back to the id. */
  function FormatAlbumId(id: SpotifyIds.SpotifyId): (s: string)
    ensures |s| == 36 && StartsWith(s, ProviderAlbum + ":")
    ensures SpotifyIds.ParseBase62(s[|ProviderAlbum| + 1..]) == Success(id)
  {
    FormatIdRoundTrip(ProviderAlbum, id);
    FormatId(ProviderAlbum, id)
  }

  /** `FormatArtistId`: 37 characters, `spotify:artist:` and text that decodes back to the id. */
  function FormatArtistId(id: SpotifyIds.SpotifyId): (s: string)
    ensures |s| == 37 && StartsWith(s, ProviderArtist + ":")
    ensures SpotifyIds.ParseBase62(s[|ProviderArtist| + 1..]) == Success(id)
  {
    FormatIdRoundTrip(ProviderArtist, id);
    FormatId(ProviderArtist, id)
  }

  /** `FormatTrackId`: 36 characters, `spotify:track:` and text that decodes back to the id. */
  function FormatTrackId(id: SpotifyIds.SpotifyId): (s: string)
    ensures |s| == 36 && StartsWith(s, ProviderTrack + ":")
    ensures SpotifyIds.ParseBase62(s[|ProviderTrack| + 1..]) == Success(id)
  {
    FormatIdRoundTrip(ProviderTrack, id);
    FormatId(ProviderTrack, id)
  }

  // ---------------------------------------------------------------- dates

  /** A `DateTime` of kind UTC. */
  datatype DateTime = DateTime(year: int, month: int, day: int, hour: int, minute: int, second: int)

  /** The `DateTime` constructor's `ArgumentOutOfRangeException`. */
  datatype DateError = OutOfRange

  /** Gregorian leap years. */
  predicate IsLeapYear(year: int) {
    year % 4 == 0 && (year % 100 != 0 || year % 400 == 0)
  }

  function DaysInMonth(year: int, month: int): (days: int)
    requires 1 <= month <= 12
    ensures 28 <= days <= 31
    ensures month == 2 ==> (days == 29 <==> IsLeapYear(year))
  {
    if month == 2 then (if IsLeapYear(year) then 29 else 28)
    else if month == 4 || month == 6 || month == 9 || month == 11 then 30
    else 31
  }

  /** The arguments `DateTime` accepts: years 1 to 9999 and real calendar fields. */
  predicate ValidDateTime(year: int, month: int, day: int, hour: int, minute: int, second: int) {
    1 <= year <= 9999 && 1 <= month <= 12 && 1 <= day <= DaysInMonth(year, month)
    && 0 <= hour < 24 && 0 <= minute < 60 && 0 <= second < 60
  }

  /** `new DateTime(year, month, day, hour, minute, second, DateTimeKind.Utc)`. */
  function NewDateTime(year: int, month: int, day: int, hour: int, minute: int, second: int): (r: Result<DateTime, DateError>)
    ensures r.Success? <==> ValidDateTime(year, month, day, hour, minute, second)
    ensures r.Success? ==> r.value == DateTime(year, month, day, hour, minute, second)
  {
    if ValidDateTime(year, month, day, hour, minute, second)
    then Success(DateTime(year, month, day, hour, minute, second))
    else Failure(OutOfRange)
  }

  /**
   * `ToDateTime`: the protocol's year, hour and minute, its month and day
   * or 1 where they are missing, and second 0; it fails exactly when those
   * fields are no calendar date and time.
   */
  function ToDateTime(date: Protocol.Date): (r: Result<DateTime, DateError>)
    ensures r.Success? <==> ValidDateTime(date.year, date.month.ValueOr(1), date.day.ValueOr(1), date.hour, date.minute, 0)
    ensures r.Success? ==>
      r.value.year == date.year && r.value.hour == date.hour && r.value.minute == date.minute && r.value.second == 0
      && r.value.month == (if date.month.Some? then date.month.value else 1)
      && r.value.day == (if date.day.Some? then date.day.value else 1)
  {
    NewDateTime(date.year, date.month.ValueOr(1), date.day.ValueOr(1), date.hour, date.minute, 0)
  }
}
