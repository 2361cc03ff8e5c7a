# Spotify metadata for Jellyfin, modelled in Dafny

This project models the core of the Jellyfin Spotify plugin. The plugin fills
a Jellyfin library with track, album and artist metadata and images from
Spotify. The model covers these parts:

- **Identifiers.** A Spotify id is a 128-bit number. It is written as 22
  base-62 characters, or as 16 big-endian bytes, or as 32 lower-case hex
  digits. Image file ids are 20 bytes, written as 40 hex digits.
- **Provider ids.** The `spotify:track`, `spotify:album` and `spotify:artist`
  keys under which the plugin stores ids on library items. Also the
  prefixed form used in tags, and the dates copied from Spotify.
- **Embedded tags.** How `SPOTIFY_ID`, `URL`, `SPOTIFY_ALBUM_ID`,
  `SPOTIFY_ARTIST_ID` and `SPOTIFY_ALBUM_ARTIST_ID` are read from a file's
  tags. This includes the mka-style `track.` fallback key, the cut at a NUL
  character and multi-value artist tags.
- **The session manager.** It holds at most one active session. Every
  fetch and search is guarded by that session. Searches are cut to the
  first five results. Image addresses are built from a template.
- **The six providers.** Metadata providers and image providers exist for
  tracks, albums and artists. Each resolves an id in a fixed order: an
  explicit provider id, then related songs or files, then a name search.
  It then fetches the record and turns it into results.
- **Image choice.** The largest rendition becomes the image and the
  smallest its thumbnail. Each protocol size class has a fixed pixel size.
  Artist header images are handled too.
- **The credentials cache** in the plugin configuration.

The remote Spotify service and the host's tag reader are parameters of the
model: `Protocol.Remote` answers metadata, overview and search requests, and
`Cascade.Host` answers a file's tag fields, a folder's child paths and the
name lookups on extracted ids. Protobuf parsing never yields a null top-level
message, so every fetch with an active session returns a record; the
providers' `is null` checks on fetched records are unreachable and the model
has no such branch. Message fields nested inside a record can be unset; the
ones the model reads are listed under "## Left out".

Code over arrays and loops is modelled as methods with loop invariants over
`array`/`seq` state (`SpotifyIds.ToBase62`, `SpotifyIds.FromBase62`,
`FileIds.FromByteArray`, `Tags.ExtractSpotifyIds`, the providers' search
loops); each such method is proved equal to a specification function whose
own properties are proved as lemmas. `SessionManager` and
`PluginConfiguration`, whose fields the plugin updates in place, are classes.

Where the repository's prose and its code differ, the model follows the code:
`FileId` built from more than 20 bytes is 20 zero bytes (the code copies
nothing), not the first 20 bytes.

## Model

| member | source | states |
|---|---|---|
| SpotifyIds.DigitChar | Jellyfin.Plugin.Spotify/SpotifyId.cs:8 | every base-62 digit is an ASCII character of the alphabet |
| SpotifyIds.DigitValue | Jellyfin.Plugin.Spotify/SpotifyId.cs:90-96 | a character's digit value, below 62, is defined only for `0-9`, `a-z`, `A-Z` |
| SpotifyIds.AlphabetAt | Jellyfin.Plugin.Spotify/SpotifyId.cs:8 | the alphabet has 62 characters and digit `d` is its `d`-th |
| SpotifyIds.DigitRoundTrip | Jellyfin.Plugin.Spotify/SpotifyId.cs:90-96 | the decoder maps the `d`-th alphabet character back to `d` |
| SpotifyIds.DigitCharOfValue | Jellyfin.Plugin.Spotify/SpotifyId.cs:90-96 | a character the decoder accepts is the alphabet character of its value |
| SpotifyIds.DigitStringValues | Jellyfin.Plugin.Spotify/SpotifyId.cs:130-133 | writing digits as characters and reading them back gives the same digits |
| SpotifyIds.DigitValuesString | Jellyfin.Plugin.Spotify/SpotifyId.cs:90-96 | reading digit characters and writing them back gives the same text |
| SpotifyIds.Base62Capacity | Jellyfin.Plugin.Spotify/SpotifyId.cs:11 | 22 base-62 digits hold every 128-bit value |
| SpotifyIds.Base62 | Jellyfin.Plugin.Spotify/SpotifyId.cs:106-138 | the base-62 text of an id is always exactly 22 characters |
| SpotifyIds.AccumulateValue | Jellyfin.Plugin.Spotify/SpotifyId.cs:87-98 | the checked `result * 62 + p` loop succeeds exactly when every character is a digit and the value stays below 2^128, and yields that value |
| SpotifyIds.ParseBase62Success | Jellyfin.Plugin.Spotify/SpotifyId.cs:75-101 | decoding succeeds exactly for 22 base-62 characters whose value is below 2^128, and yields that value |
| SpotifyIds.ParseBase62OfBase62 | Jellyfin.Plugin.Spotify/SpotifyId.cs:75-138 | decoding the base-62 text of any id gives back the id |
| SpotifyIds.Base62OfParseBase62 | Jellyfin.Plugin.Spotify/SpotifyId.cs:75-138 | text that decodes is the base-62 text of the decoded id |
| SpotifyIds.FromBase62 | Jellyfin.Plugin.Spotify/SpotifyId.cs:75-101 | the character loop returns the decoding; empty text, wrong length, a bad character and overflow are errors |
| SpotifyIds.TryFromBase62 | Jellyfin.Plugin.Spotify/SpotifyId.cs:31-41 | null exactly when the text is not 22 digits with a value below 2^128 |
| SpotifyIds.ChunkSplit | Jellyfin.Plugin.Spotify/SpotifyId.cs:113 | `(uint)(value >> shift)` glues onto the higher bits to give `value >> shift` |
| SpotifyIds.CarryPass | Jellyfin.Plugin.Spotify/SpotifyId.cs:115-120 | one inner step keeps the pending value and leaves a carry below 2^32 |
| SpotifyIds.SpillRoom | Jellyfin.Plugin.Spotify/SpotifyId.cs:122-127 | a carry still to spill always has room in the 22-digit buffer |
| SpotifyIds.SpillPass | Jellyfin.Plugin.Spotify/SpotifyId.cs:122-127 | one spill step keeps the value the digits stand for |
| SpotifyIds.FoldChunk | Jellyfin.Plugin.Spotify/SpotifyId.cs:113-120 | the in-place pass multiplies the digits by 2^32, adds the chunk, and leaves the higher digits alone |
| SpotifyIds.SpillCarry | Jellyfin.Plugin.Spotify/SpotifyId.cs:122-127 | the spill loop writes the carry as new digits within the buffer, keeping the value |
| SpotifyIds.AddChunk | Jellyfin.Plugin.Spotify/SpotifyId.cs:111-128 | one outer step turns the digits of `value >> (shift + 32)` into those of `value >> shift` |
| SpotifyIds.MapToAlphabet | Jellyfin.Plugin.Spotify/SpotifyId.cs:130-133 | every digit in the buffer is replaced in place by its alphabet character |
| SpotifyIds.TextOfDigitBuffer | Jellyfin.Plugin.Spotify/SpotifyId.cs:130-137 | mapping, reversing and ASCII-decoding the least-significant-first digits gives the base-62 text |
| SpotifyIds.DigitsToText | Jellyfin.Plugin.Spotify/SpotifyId.cs:130-137 | the in-place mapping and reversal of the buffer produce the base-62 text |
| SpotifyIds.ToBase62 | Jellyfin.Plugin.Spotify/SpotifyId.cs:106-138 | the chunked in-place conversion returns the 22-character base-62 text of the value |
| SpotifyIds.BigEndianBytes | Jellyfin.Plugin.Spotify/SpotifyId.cs:140-148 | an id as bytes is exactly 16 bytes |
| SpotifyIds.FromBytes | Jellyfin.Plugin.Spotify/SpotifyId.cs:55-73 | bytes give an id exactly when there are 16 of them |
| SpotifyIds.HostBytes | Jellyfin.Plugin.Spotify/SpotifyId.cs:142 | `BitConverter.GetBytes` gives 16 bytes in the host's order |
| SpotifyIds.FromBytesOfBigEndianBytes | Jellyfin.Plugin.Spotify/SpotifyId.cs:55-73 | reading the 16 big-endian bytes of an id gives back the id |
| SpotifyIds.BigEndianBytesOfFromBytes | Jellyfin.Plugin.Spotify/SpotifyId.cs:55-73 | bytes that read as an id are that id's big-endian bytes |
| SpotifyIds.FromByteArray | Jellyfin.Plugin.Spotify/SpotifyId.cs:55-73 | on either host byte order the result is the big-endian reading; other lengths are errors |
| SpotifyIds.TryFromByteArray | Jellyfin.Plugin.Spotify/SpotifyId.cs:19-29 | null exactly when the input is not 16 bytes |
| SpotifyIds.Base16 | Jellyfin.Plugin.Spotify/SpotifyId.cs:140-150 | the hex form is 32 lower-case hex digits |
| SpotifyIds.Base16RoundTrip | Jellyfin.Plugin.Spotify/SpotifyId.cs:140-150 | the hex form decodes to the big-endian bytes, which read back as the id |
| SpotifyIds.ToBase16 | Jellyfin.Plugin.Spotify/SpotifyId.cs:140-150 | on either host byte order, reversing on little-endian hosts gives the big-endian hex form |
| SpotifyIds.ReversedTwice | Jellyfin.Plugin.Spotify/SpotifyId.cs:146 | reversing twice restores the bytes, so the little-endian path agrees with the big-endian one |
| Positional.ReverseInPlace | Jellyfin.Plugin.Spotify/SpotifyId.cs:135 | in-place reversal leaves the buffer holding the reversal of its old contents |
| Protocol.GidId | Jellyfin.Plugin.Spotify/SpotifyId.cs:103-104 | a record's 16-byte gid reads as an id whose bytes are the gid |
| Hex.NibbleValue | Jellyfin.Plugin.Spotify/FileId.cs:55 | a hex digit's value is below 16 |
| Hex.ToHexLower | Jellyfin.Plugin.Spotify/FileId.cs:58-59 | hex text has two lower-case digits per byte |
| Hex.NibbleRoundTrip | Jellyfin.Plugin.Spotify/FileId.cs:55-59 | a nibble's lower-case digit reads back as the nibble |
| Hex.NibbleCharOfValue | Jellyfin.Plugin.Spotify/FileId.cs:55-59 | a lower-case hex digit is the digit of its value |
| Hex.FromHexToHex | Jellyfin.Plugin.Spotify/FileId.cs:55-59 | hex-decoding the hex text of bytes gives back the bytes |
| Hex.FromHexSuccess | Jellyfin.Plugin.Spotify/FileId.cs:55 | hex decoding succeeds exactly for an even number of hex digits, and halves the length |
| Hex.ToHexFromHex | Jellyfin.Plugin.Spotify/FileId.cs:55-59 | lower-case hex text that decodes is the hex text of the decoded bytes |
| FileIds.Padded | Jellyfin.Plugin.Spotify/FileId.cs:31-41 | a file id is always 20 bytes: up to 20 bytes are copied and zero-padded, and longer input gives all zeros |
| FileIds.FromByteArray | Jellyfin.Plugin.Spotify/FileId.cs:31-41 | the fresh 20-byte array holds the padded bytes |
| FileIds.FromBytes | Jellyfin.Plugin.Spotify/FileId.cs:10-18 | the byte constructors store the padded bytes |
| FileIds.Base16 | Jellyfin.Plugin.Spotify/FileId.cs:27 | the hex form has two lower-case digits per byte |
| FileIds.FromBase16Accepts | Jellyfin.Plugin.Spotify/FileId.cs:43-56 | hex text is accepted exactly when it has 40 hex digits; empty text and wrong lengths give the matching error |
| FileIds.ParseBase16 | Jellyfin.Plugin.Spotify/FileId.cs:20-59 | the string constructor applied to a file id's hex form gives back the file id |
| FileIds.Base16Parse | Jellyfin.Plugin.Spotify/FileId.cs:20-59 | lower-case hex text that parses is the hex form of the parsed file id |
| Constants.ProviderKeyValues | Jellyfin.Plugin.Spotify/Constants.cs:19-26 | the provider keys are `spotify:track`, `spotify:album` and `spotify:artist` |
| Constants.ProviderKeys | Jellyfin.Plugin.Spotify/Constants.cs:24-26 | the three provider keys are pairwise distinct |
| Constants.FormatTrackId | Jellyfin.Plugin.Spotify/Constants.cs:41 | a formatted track id is 36 characters, starts with `spotify:track:`, and the rest decodes back to the id |
| Constants.FormatAlbumId | Jellyfin.Plugin.Spotify/Constants.cs:37 | a formatted album id is 36 characters, starts with `spotify:album:`, and the rest decodes back to the id |
| Constants.FormatArtistId | Jellyfin.Plugin.Spotify/Constants.cs:39 | a formatted artist id is 37 characters, starts with `spotify:artist:`, and the rest decodes back to the id |
| Constants.FormatIdRoundTrip | Jellyfin.Plugin.Spotify/Constants.cs:37-41 | a prefixed id is prefix, colon and 22 characters, and the part after the colon decodes to the id |
| Constants.DaysInMonth | Jellyfin.Plugin.Spotify/Constants.cs:52 | a month has 28 to 31 days, and February has 29 exactly in leap years |
| Constants.NewDateTime | Jellyfin.Plugin.Spotify/Constants.cs:52 | `new DateTime` succeeds exactly for a valid year 1-9999, month, day, hour, minute and second |
| Constants.ToDateTime | Jellyfin.Plugin.Spotify/Constants.cs:43-53 | a missing month or day becomes 1 and the second is 0; the date throws exactly when that is not a valid date |
| Text.AsciiDecode | Jellyfin.Plugin.Spotify/SpotifyId.cs:137 | ASCII decoding keeps bytes below 128 and turns others into `?` |
| Text.TrimStart | Jellyfin.Plugin.Spotify/TagHelper.cs:149 | trimming the start leaves a suffix, removes only white space, and starts with a non-white character |
| Text.TrimEnd | Jellyfin.Plugin.Spotify/TagHelper.cs:149 | trimming the end leaves a prefix, removes only white space, and ends with a non-white character |
| Text.TrimSlice | Jellyfin.Plugin.Spotify/TagHelper.cs:58 | `Trim` gives a slice of its input with only white space around it and no white space at its ends |
| Text.LeadingWhiteSpace | Jellyfin.Plugin.Spotify/TagHelper.cs:149 | what `TrimStart` removes is all white space |
| Text.TrailingWhiteSpace | Jellyfin.Plugin.Spotify/TagHelper.cs:149 | what `TrimEnd` removes is all white space |
| Text.TrimIdle | Jellyfin.Plugin.Spotify/TagHelper.cs:58 | text without white space at its ends is unchanged by `Trim` |
| Text.ToLowerInvariant | Jellyfin.Plugin.Spotify/TagHelper.cs:149 | lower-casing maps `A-Z` to `a-z` and keeps every other character |
| Text.ReplaceChar | Jellyfin.Plugin.Spotify/TagHelper.cs:149 | replacing a character changes exactly its occurrences |
| Text.ReplaceTail | Jellyfin.Plugin.Spotify/Api/SessionManager.cs:197 | replacing a placeholder that ends the text and does not occur earlier substitutes it once |
| Text.TruncateAtNull | Jellyfin.Plugin.Spotify/TagHelper.cs:131 | the result is the prefix before the first NUL, and the whole text when there is none |
| Text.TruncateAtNullClean | Jellyfin.Plugin.Spotify/TagHelper.cs:131 | text followed by a NUL and anything cuts back to the text |
| Text.Split | Jellyfin.Plugin.Spotify/TagHelper.cs:58 | splitting gives at least one piece and no piece contains the separator |
| Text.IndexOf | Jellyfin.Plugin.Spotify/TagHelper.cs:58 | the position found is the first occurrence |
| Text.IndexOfAt | Jellyfin.Plugin.Spotify/TagHelper.cs:58 | any first occurrence is the position found |
| Text.JoinSplit | Jellyfin.Plugin.Spotify/TagHelper.cs:58 | joining the pieces of a split with the separator gives back the text |
| Text.SplitJoin | Jellyfin.Plugin.Spotify/TagHelper.cs:58 | splitting pieces joined by a separator none of them contains gives back the pieces |
| Text.SplitNone | Jellyfin.Plugin.Spotify/TagHelper.cs:55-58 | text without the separator splits into itself alone |
| Text.TrimAll | Jellyfin.Plugin.Spotify/TagHelper.cs:58 | `TrimEntries` trims every piece and keeps their number and order |
| Tags.FallbackKeyShape | Jellyfin.Plugin.Spotify/TagHelper.cs:142-151 | blank keys are kept; others become `track.` and the trimmed key, with no spaces and no upper-case letters |
| Tags.PlainFallbackKey | Jellyfin.Plugin.Spotify/TagHelper.cs:142-151 | a key without spaces falls back to `track.` and its lower case |
| Tags.FallbackStartsWithT | Jellyfin.Plugin.Spotify/TagHelper.cs:142-151 | a key that is not blank falls back to a longer key starting with `t` |
| Tags.KeysApart | Jellyfin.Plugin.Spotify/TagHelper.cs:35-84 | no tag key or fallback key of one field coincides with the track id's, so the fields are read independently |
| Tags.FieldWithFallback | Jellyfin.Plugin.Spotify/TagHelper.cs:154-171 | the exact key wins; otherwise the fallback key is used; the field is missing only when both are absent |
| Tags.SanitizedStringTag | Jellyfin.Plugin.Spotify/TagHelper.cs:124-132 | missing or empty tags yield null; others are cut at the first NUL |
| Tags.SanitizedFieldAsWritten | Jellyfin.Plugin.Spotify/TagHelper.cs:134-139 | reports found exactly when the field exists, and gives a null value while reporting found exactly for an empty field |
| Tags.SanitizedField | Jellyfin.Plugin.Spotify/TagHelper.cs:134-139 | the value is present exactly when the field exists and is not empty, and is a NUL-free prefix of it |
| Tags.NulTruncated | Jellyfin.Plugin.Spotify/TagHelper.cs:124-139 | a field holding text, a NUL and garbage reads as the text |
| Tags.PrefixedId | Jellyfin.Plugin.Spotify/TagHelper.cs:35-38 | a prefixed value gives an id exactly when it starts with the prefix and the rest decodes, and is then the prefix and the id's text |
| Tags.PrefixedIdOfBase62 | Jellyfin.Plugin.Spotify/TagHelper.cs:35-38 | a prefix followed by an id's text gives back the id |
| Tags.ReadPrefixedId | Jellyfin.Plugin.Spotify/TagHelper.cs:35-38 | the prefix check and decode compute the prefixed id |
| Tags.ArtistEntries | Jellyfin.Plugin.Spotify/TagHelper.cs:55-81 | an artist tag always yields at least one entry |
| Tags.ArtistEntryIds | Jellyfin.Plugin.Spotify/TagHelper.cs:59-69 | at most one id per entry, and each id comes from an entry that is the artist key, a colon and its text |
| Tags.CollectEntries | Jellyfin.Plugin.Spotify/TagHelper.cs:59-69 | the loop over the entries collects the artist ids of the entries, in order |
| Tags.ArtistEntryIdsAppend | Jellyfin.Plugin.Spotify/TagHelper.cs:59-69 | the ids of two entry lists are the ids of each, concatenated |
| Tags.CollectArtistIds | Jellyfin.Plugin.Spotify/TagHelper.cs:53-113 | the multi-value and single-value branches compute the artist ids of a field |
| Tags.ExtractSpotifyIds | Jellyfin.Plugin.Spotify/TagHelper.cs:24-122 | the extraction returns the track, album, artist and album-artist ids the tags specify, with a field found empty read as absent, the corrected reading of "## Findings" |
| Tags.Base62Plain | Jellyfin.Plugin.Spotify/SpotifyId.cs:8 | an id's text has no white space, separator or NUL |
| Tags.FormattedPlain | Jellyfin.Plugin.Spotify/Constants.cs:37-41 | a formatted id has no separator or NUL and is unchanged by trimming |
| Tags.FormattedArtistPlain | Jellyfin.Plugin.Spotify/Constants.cs:39 | a formatted artist id has no separator or NUL, is unchanged by trimming, and is the artist key, a colon and the id |
| Tags.FormattedArtists | Jellyfin.Plugin.Spotify/Constants.cs:39 | the formatted artist ids, one per id, in order |
| Tags.FormattedArtistEntries | Jellyfin.Plugin.Spotify/TagHelper.cs:59-69 | entries written by the artist formatter read back as the same ids in order |
| Tags.FormattedArtistsPrefix | Jellyfin.Plugin.Spotify/TagHelper.cs:59-69 | formatting a prefix of the ids gives that prefix of the entries |
| Tags.FormattedArtistEntry | Jellyfin.Plugin.Spotify/TagHelper.cs:61-67 | one entry written by the artist formatter holds its id |
| Tags.MultiValueArtists | Jellyfin.Plugin.Spotify/TagHelper.cs:55-70 | two or more formatted artist ids joined by the separator read back as those ids |
| Tags.JoinHasSeparator | Jellyfin.Plugin.Spotify/TagHelper.cs:55 | two or more joined pieces contain the separator, so the multi-value branch is taken |
| Tags.JoinAvoids | Jellyfin.Plugin.Spotify/TagHelper.cs:55 | joining pieces that avoid a character yields text that avoids it |
| Tags.SingleValueNotTrimmed | Jellyfin.Plugin.Spotify/TagHelper.cs:71-81 | a single artist value with a leading space gives no id, since only the multi-value branch trims |
| Tags.ListedValueTrimmed | Jellyfin.Plugin.Spotify/TagHelper.cs:55-70 | the same value followed by a separator is trimmed and gives its id |
| Tags.TrailingSeparator | Jellyfin.Plugin.Spotify/TagHelper.cs:58 | a value and a trailing separator split into the trimmed value and an empty entry |
| Tags.LeadingSpaceTrimmed | Jellyfin.Plugin.Spotify/TagHelper.cs:58 | trimming removes a leading space from trimmed text |
| Tags.TrailingEmptyEntry | Jellyfin.Plugin.Spotify/TagHelper.cs:59-69 | an empty entry after a formatted artist id adds nothing |
| Tags.TrackTagOfFormatted | Jellyfin.Plugin.Spotify/TagHelper.cs:35-39 | a `SPOTIFY_ID` tag written by the track formatter gives that id |
| Tags.TrackIdFromTag | Jellyfin.Plugin.Spotify/TagHelper.cs:35-45 | a file with only a formatted `SPOTIFY_ID` tag has that track id |
| Tags.TrackUrlPrefixPlain | Jellyfin.Plugin.Spotify/TagHelper.cs:41 | the track address prefix has no NUL |
| Tags.TrackUrlValue | Jellyfin.Plugin.Spotify/TagHelper.cs:41-44 | a track address tag is read whole and its part after the prefix is the id text with its suffix |
| Tags.UrlReplacesTrackId | Jellyfin.Plugin.Spotify/TagHelper.cs:35-45 | with a valid `SPOTIFY_ID`, a track `URL` replaces the id: its own id without a suffix, and none with one |
| Tags.UrlNeedsTrackId | Jellyfin.Plugin.Spotify/TagHelper.cs:41 | without a track id from `SPOTIFY_ID` the `URL` tag is ignored |
| Tags.AlbumArtistPrefix | Jellyfin.Plugin.Spotify/TagHelper.cs:104-110 | album-artist tags take artist-prefixed ids and ignore album-prefixed ones |
| Tags.SingleArtistField | Jellyfin.Plugin.Spotify/TagHelper.cs:71-81 | a clean value without the separator is read whole, as one entry |
| Tags.AlbumIdNotArtist | Jellyfin.Plugin.Spotify/TagHelper.cs:104 | an album-prefixed id fails the artist prefix check |
| Tags.TrackTagIdAsWritten | Jellyfin.Plugin.Spotify/TagHelper.cs:35 | as written, the track tag check throws exactly for an empty tag, and otherwise agrees with the corrected reading |
| Tags.EmptyTrackTag | Jellyfin.Plugin.Spotify/TagHelper.cs:35 | an empty `SPOTIFY_ID` throws as written, and the corrected reading finds no ids at all |
| Tags.UsedFieldAsWritten | Jellyfin.Plugin.Spotify/TagHelper.cs:134-139 | as written, a lookup whose found value is then used throws exactly for a field found empty, and otherwise gives the corrected value |
| Tags.TrackIdAsWritten | Jellyfin.Plugin.Spotify/TagHelper.cs:35-45 | as written, the track id throws for an empty `SPOTIFY_ID`, or for an empty `URL` once a track id was read, and otherwise agrees with the corrected reading |
| Tags.AlbumIdAsWritten | Jellyfin.Plugin.Spotify/TagHelper.cs:47-51 | as written, the album id throws exactly for an empty `SPOTIFY_ALBUM_ID`, and otherwise agrees with the corrected reading |
| Tags.ArtistIdsAsWritten | Jellyfin.Plugin.Spotify/TagHelper.cs:53-113 | as written, an artist field throws exactly when it is found empty, and otherwise gives the corrected ids |
| Tags.ExtractSpotifyIdsAsWritten | Jellyfin.Plugin.Spotify/TagHelper.cs:24-122 | as written, the extraction throws exactly when one of the fields it uses is found empty, and otherwise returns the corrected ids |
| Tags.EmptyUrlTag | Jellyfin.Plugin.Spotify/TagHelper.cs:41 | a valid `SPOTIFY_ID` with an empty `URL` throws as written, while the corrected reading keeps the track id |
| Tags.EmptyIdTag | Jellyfin.Plugin.Spotify/TagHelper.cs:47-86 | an empty album, artist or album-artist field throws as written, while the corrected reading finds no ids |
| Tags.EmptyValueOnly | Jellyfin.Plugin.Spotify/TagHelper.cs:134-139 | in a file whose one field is empty, no corrected lookup finds a value |
| Sessions.ItemId | Jellyfin.Plugin.Spotify/Api/SessionManager.cs:148 | a search item gives an id exactly when its id is present and decodes, and it is that id's text |
| Sessions.DecodeItems | Jellyfin.Plugin.Spotify/Api/SessionManager.cs:148 | the items decode all-or-nothing, one id per item, in order |
| Sessions.Take | Jellyfin.Plugin.Spotify/Api/SessionManager.cs:148 | `Take(n)` is the first `n` elements, or all when there are fewer |
| Sessions.SearchIds | Jellyfin.Plugin.Spotify/Api/SessionManager.cs:148 | a missing page gives no ids; otherwise at most five ids, each the decoding of the item at its position |
| Sessions.SearchIdsIgnoresRest | Jellyfin.Plugin.Spotify/Api/SessionManager.cs:148 | items after the fifth are never decoded, so a bad id there does not matter |
| Sessions.SearchIdsOfBase62 | Jellyfin.Plugin.Spotify/Api/SessionManager.cs:148 | items holding ids' texts give back the first five ids in order |
| Sessions.DefaultImageUrlOf | Jellyfin.Plugin.Spotify/Api/SessionManager.cs:196-197 | without a user template an image is addressed at `https://i.scdn.co/image/` and its hex id |
| Sessions.FetchTracks | Jellyfin.Plugin.Spotify/MetadataProviders/TrackMetadataProvider.cs:157-161 | the fetched tracks are the service's answers to the ids' hex forms, in order |
| Sessions.FetchAlbums | Jellyfin.Plugin.Spotify/MetadataProviders/AlbumMetadataProvider.cs:152-156 | the fetched albums are the service's answers to the ids' hex forms, in order |
| Sessions.FetchArtists | Jellyfin.Plugin.Spotify/MetadataProviders/ArtistMetadataProvider.cs:146-150 | the fetched artists are the service's answers to the ids' hex forms, in order |
| Sessions.SessionManager.constructor | Jellyfin.Plugin.Spotify/Api/SessionManager.cs:27-37 | a session is active after construction exactly when credentials were stored, and none is disposed |
| Sessions.SessionManager.Connect | Jellyfin.Plugin.Spotify/Api/SessionManager.cs:49-79 | the old session is disposed and the new one is active |
| Sessions.SessionManager.Disconnect | Jellyfin.Plugin.Spotify/Api/SessionManager.cs:81-90 | no session is active afterwards, and the former one, if any, is disposed |
| Sessions.SessionManager.Dispose | Jellyfin.Plugin.Spotify/Api/SessionManager.cs:200-206 | the active session is disposed but stays in place |
| Sessions.DisconnectTwice | Jellyfin.Plugin.Spotify/Api/SessionManager.cs:81-90 | disconnecting twice disposes a session once |
| Sessions.SessionManager.GetTrack | Jellyfin.Plugin.Spotify/Api/SessionManager.cs:92-101 | fails exactly without a session; otherwise the track requested by the id's hex form |
| Sessions.SessionManager.GetAlbum | Jellyfin.Plugin.Spotify/Api/SessionManager.cs:103-112 | fails exactly without a session; otherwise the album requested by the id's hex form |
| Sessions.SessionManager.GetArtist | Jellyfin.Plugin.Spotify/Api/SessionManager.cs:114-123 | fails exactly without a session; otherwise the artist requested by the id's hex form |
| Sessions.SessionManager.GetArtistOverview | Jellyfin.Plugin.Spotify/Api/SessionManager.cs:125-133 | fails exactly without a session; otherwise the overview requested by the id's base-62 form |
| Sessions.SessionManager.SearchTrack | Jellyfin.Plugin.Spotify/Api/SessionManager.cs:137-149 | fails without a session; otherwise the ids of the first five track results |
| Sessions.SessionManager.SearchAlbum | Jellyfin.Plugin.Spotify/Api/SessionManager.cs:151-163 | fails without a session; otherwise the ids of the first five album results |
| Sessions.SessionManager.SearchArtist | Jellyfin.Plugin.Spotify/Api/SessionManager.cs:165-177 | fails without a session; otherwise the ids of the first five artist results |
| Sessions.SessionManager.FormatImageUrl | Jellyfin.Plugin.Spotify/Api/SessionManager.cs:189-198 | fails exactly without a session; otherwise the session's template filled with the file id |
| LibraryItems.RefOf | Jellyfin.Plugin.Spotify/ImageProviders/TrackImageProvider.cs:38-43 | the cascade sees an item's own provider ids and path |
| Cascade.ExplicitId | Jellyfin.Plugin.Spotify/MetadataProviders/TrackMetadataProvider.cs:51 | an id is read from a key exactly when the key is present and its value decodes |
| Cascade.ReadExplicitId | Jellyfin.Plugin.Spotify/MetadataProviders/AlbumMetadataProvider.cs:47 | `GetProviderId(key) is { } id ? TryFromBase62(id) : null` computes the explicit id |
| Cascade.ExplicitIdOfBase62 | Jellyfin.Plugin.Spotify/MetadataProviders/Helpers.cs:26-31 | an id stored as its text under a key reads back as the id |
| Cascade.WithId | Jellyfin.Plugin.Spotify/MetadataProviders/Helpers.cs:26-31 | `SetProviderId` makes the id read back under its key and leaves every other key as it was |
| Cascade.FirstHit | Jellyfin.Plugin.Spotify/MetadataProviders/AlbumMetadataProvider.cs:49-60 | the loop's answer is none exactly when no element gives an id, and is the answer of some element |
| Cascade.FirstHitAt | Jellyfin.Plugin.Spotify/MetadataProviders/AlbumMetadataProvider.cs:49-60 | the answer comes from the first element that gives one; every earlier element gives none |
| Cascade.FirstHitConcat | Jellyfin.Plugin.Spotify/ImageProviders/ArtistImageProvider.cs:43-52 | over two lists, the first list's answer wins and the second is tried only when it has none |
| Cascade.KeepYear | Jellyfin.Plugin.Spotify/MetadataProviders/TrackMetadataProvider.cs:163 | the year filter keeps exactly the elements of the given year, in order, and everything without a year |
| Cascade.KeepYearComplete | Jellyfin.Plugin.Spotify/MetadataProviders/TrackMetadataProvider.cs:163 | every element of the given year is kept |
| Cascade.KeepYearConcat | Jellyfin.Plugin.Spotify/MetadataProviders/TrackMetadataProvider.cs:156-170 | filtering distributes over concatenation |
| Cascade.Collect | Jellyfin.Plugin.Spotify/ImageProviders/TrackImageProvider.cs:68-83 | collecting non-null values keeps at most one per element |
| Cascade.CollectSound | Jellyfin.Plugin.Spotify/ImageProviders/TrackImageProvider.cs:68-83 | every collected value is the value of some element |
| Cascade.Each | Jellyfin.Plugin.Spotify/MetadataProviders/ArtistMetadataProvider.cs:146-151 | one result per element, in order |
| Cascade.EachStep | Jellyfin.Plugin.Spotify/MetadataProviders/ArtistMetadataProvider.cs:146-151 | one more element adds its result at the end |
| Cascade.MapAll | Jellyfin.Plugin.Spotify/MetadataProviders/TrackMetadataProvider.cs:156-170 | converting all elements succeeds exactly when each does, giving one value per element in order |
| Cascade.MapAllStops | Jellyfin.Plugin.Spotify/MetadataProviders/TrackMetadataProvider.cs:156-170 | a failing conversion reports the first failing element's error |
| Cascade.MapAllSnoc | Jellyfin.Plugin.Spotify/MetadataProviders/TrackMetadataProvider.cs:156-170 | one more element either appends its value or fails |
| Cascade.KeepYearStep | Jellyfin.Plugin.Spotify/MetadataProviders/TrackMetadataProvider.cs:163 | one more element is kept exactly when its year matches |
| Cascade.KeepMapFails | Jellyfin.Plugin.Spotify/MetadataProviders/TrackMetadataProvider.cs:156-170 | a failure among the kept elements makes the whole loop fail |
| Cascade.KeepMapStep | Jellyfin.Plugin.Spotify/MetadataProviders/TrackMetadataProvider.cs:156-170 | one loop step appends the converted kept element or keeps the result |
| Cascade.CollectSnoc | Jellyfin.Plugin.Spotify/ImageProviders/AlbumImageProvider.cs:84-105 | one more element appends its value when present |
| Cascade.CollectStep | Jellyfin.Plugin.Spotify/ImageProviders/AlbumImageProvider.cs:84-105 | one loop step of collection on a prefix |
| Cascade.KeptValuesCollect | Jellyfin.Plugin.Spotify/ImageProviders/AlbumImageProvider.cs:84-105 | the year check inside the loop is the same as filtering first and collecting after |
| Cascade.CollectKept | Jellyfin.Plugin.Spotify/ImageProviders/AlbumImageProvider.cs:84-105 | the loop with `continue` collects the present values of the elements of the given year |
| Cascade.MapKept | Jellyfin.Plugin.Spotify/MetadataProviders/TrackMetadataProvider.cs:156-170 | the loop with `continue` converts exactly the elements of the given year, failing at the first error |
| Cascade.KeepCollectSound | Jellyfin.Plugin.Spotify/ImageProviders/AlbumImageProvider.cs:84-105 | every collected value comes from an element of the given year |
| Cascade.FlatMap | Jellyfin.Plugin.Spotify/ImageProviders/ArtistImageProvider.cs:88-108 | the concatenation of each element's values, in order |
| Cascade.FlatMapStep | Jellyfin.Plugin.Spotify/ImageProviders/ArtistImageProvider.cs:88-108 | one more element appends its values |
| Cascade.Distinct | Jellyfin.Plugin.Spotify/ImageProviders/ArtistImageProvider.cs:43 | `Distinct` keeps exactly the elements of the input, once each, in first-occurrence order |
| Cascade.DistinctPrefix | Jellyfin.Plugin.Spotify/ImageProviders/ArtistImageProvider.cs:43 | the de-duplication of a list starts with that of its prefix |
| Cascade.TrackIdPrecedence | Jellyfin.Plugin.Spotify/MetadataProviders/TrackMetadataProvider.cs:51-56 | a valid explicit track id wins over the tags; only without one do the tags decide |
| Cascade.ResolveTrackId | Jellyfin.Plugin.Spotify/MetadataProviders/TrackMetadataProvider.cs:51-56 | the explicit id, else the file's tag id |
| Cascade.ReadSongAlbumId | Jellyfin.Plugin.Spotify/ImageProviders/AlbumImageProvider.cs:45-46 | a song's explicit album id, else its file's tag album id |
| Cascade.ResolveAlbumId | Jellyfin.Plugin.Spotify/MetadataProviders/AlbumMetadataProvider.cs:47-60 | the explicit album id, else the first song's album id |
| Cascade.ScanSongs | Jellyfin.Plugin.Spotify/MetadataProviders/AlbumMetadataProvider.cs:49-60 | the loop stops at the first song with an album id and returns it |
| Cascade.ReadNameHit | Jellyfin.Plugin.Spotify/MetadataProviders/ArtistMetadataProvider.cs:50-52 | the name lookup among artists, else among album artists, in one file's tags |
| Cascade.ResolveArtistId | Jellyfin.Plugin.Spotify/MetadataProviders/ArtistMetadataProvider.cs:44-58 | the explicit artist id, else the first file whose tags match the name |
| Cascade.ScanPaths | Jellyfin.Plugin.Spotify/MetadataProviders/ArtistMetadataProvider.cs:48-57 | the loop stops at the first file whose tags match the name and returns its id |
| Cascade.Paths | Jellyfin.Plugin.Spotify/ImageProviders/ArtistImageProvider.cs:43 | the items' paths, one per item in order |
| ImageHelpers.MaxIndex | Jellyfin.Plugin.Spotify/ImageProviders/Helpers.cs:76-77 | `MaxBy` settles on an element with the largest key, the first of them |
| ImageHelpers.MinIndex | Jellyfin.Plugin.Spotify/ImageProviders/Helpers.cs:79-80 | `MinBy` settles on an element with the smallest key, the first of them |
| ImageHelpers.MaxBy | Jellyfin.Plugin.Spotify/ImageProviders/Helpers.cs:76-77 | null exactly for an empty list; otherwise that first largest element |
| ImageHelpers.MinBy | Jellyfin.Plugin.Spotify/ImageProviders/Helpers.cs:79-80 | null exactly for an empty list; otherwise that first smallest element |
| ImageHelpers.SingleRendition | Jellyfin.Plugin.Spotify/ImageProviders/Helpers.cs:76-80 | a single rendition is both the best and the worst |
| ImageHelpers.Resolution | Jellyfin.Plugin.Spotify/ImageProviders/Helpers.cs:32-39 | only the four known size classes have a pixel size |
| ImageHelpers.ResolutionMonotone | Jellyfin.Plugin.Spotify/ImageProviders/Helpers.cs:32-39 | a larger class has more pixels, between 64 and 640 |
| ImageHelpers.ImagesInfo | Jellyfin.Plugin.Spotify/ImageProviders/Helpers.cs:23-49 | no info for no renditions; otherwise a primary image at the largest rendition's address, the smallest as its thumbnail, sized by the largest one's class |
| ImageHelpers.ImagesInfoLargest | Jellyfin.Plugin.Spotify/ImageProviders/Helpers.cs:23-49 | the reported width is at least the pixel size of every rendition |
| ImageHelpers.GroupInfo | Jellyfin.Plugin.Spotify/ImageProviders/Helpers.cs:20-21 | a missing or empty group has no info; otherwise the info of its renditions |
| ImageHelpers.AlbumImageInfo | Jellyfin.Plugin.Spotify/ImageProviders/Helpers.cs:17-18 | the cover group when it has renditions, else the cover list; none exactly when both are empty |
| ImageHelpers.ArtistImageInfo | Jellyfin.Plugin.Spotify/ImageProviders/Helpers.cs:14-15 | the portrait group when it has renditions, else the portrait list; none exactly when both are empty |
| ImageHelpers.TrackImageInfo | Jellyfin.Plugin.Spotify/ImageProviders/Helpers.cs:11-12 | a track's image is its album's |
| ImageHelpers.HeaderImageInfo | Jellyfin.Plugin.Spotify/ImageProviders/Helpers.cs:51-68 | no info without sources; otherwise a backdrop at the widest source, the narrowest as thumbnail, with the widest one's size |
| ImageHelpers.OptionalHeaderInfo | Jellyfin.Plugin.Spotify/ImageProviders/Helpers.cs:82-86 | a missing header has no info; otherwise the header's info |
| MetadataHelpers.GidBase62 | Jellyfin.Plugin.Spotify/MetadataProviders/Helpers.cs:26 | a gid's stored text is 22 characters and decodes to the gid's id |
| MetadataHelpers.TrackIdsUnder | Jellyfin.Plugin.Spotify/MetadataProviders/Helpers.cs:26-31 | the keys are exactly track, album and, when there is one, artist, and each reads back as the id written |
| MetadataHelpers.TrackIds | Jellyfin.Plugin.Spotify/MetadataProviders/TrackMetadataProvider.cs:121-127 | a track's provider ids read back as the track's, album's and first artist's ids, and no others are set |
| MetadataHelpers.AlbumIds | Jellyfin.Plugin.Spotify/MetadataProviders/AlbumMetadataProvider.cs:109-114 | an album's provider ids read back as the album's and first artist's ids, and no track id is set |
| MetadataHelpers.PremiereDate | Jellyfin.Plugin.Spotify/MetadataProviders/Helpers.cs:19 | the premiere date is the record's converted date; an impossible date throws |
| MetadataHelpers.UrlOf | Jellyfin.Plugin.Spotify/MetadataProviders/Helpers.cs:14 | `info?.Url` is present exactly with an info |
| MetadataHelpers.ImageEntry | Jellyfin.Plugin.Spotify/MetadataProviders/TrackMetadataProvider.cs:116-119 | a remote image is added exactly when there is an info, with its address and the given type |
| MetadataHelpers.Names | Jellyfin.Plugin.Spotify/MetadataProviders/TrackMetadataProvider.cs:80-90 | the artists' names, in order |
| MetadataHelpers.BiographyText | Jellyfin.Plugin.Spotify/MetadataProviders/Helpers.cs:43 | the empty text when no biography has a text, otherwise the text of a biography |
| MetadataHelpers.BiographyTextAt | Jellyfin.Plugin.Spotify/MetadataProviders/Helpers.cs:43 | the text is that of the first biography that has one |
| MetadataHelpers.TrackResult | Jellyfin.Plugin.Spotify/MetadataProviders/Helpers.cs:12-34 | a track result has the track's name, its album's year, date, image and label, and ids that resolve back to the track, album and first artist; an impossible date throws |
| MetadataHelpers.AlbumResult | Jellyfin.Plugin.Spotify/MetadataProviders/Helpers.cs:49-70 | an album result has the album's name, year, date, image and label, and ids that resolve back to the album and first artist; an impossible date throws |
| MetadataHelpers.ArtistResult | Jellyfin.Plugin.Spotify/MetadataProviders/Helpers.cs:36-47 | an artist result has the artist's name, image and first biography text, no year or date, and only an artist id that resolves back to the artist |
| TrackMetadata.RoleOf | Jellyfin.Plugin.Spotify/MetadataProviders/TrackMetadataProvider.cs:97-107 | main and featured artists are artists and nothing else is; unknown, orchestra and unlisted roles are unknown and nothing else is |
| TrackMetadata.People | Jellyfin.Plugin.Spotify/MetadataProviders/TrackMetadataProvider.cs:95-114 | one person per credited artist, in order, with the artist's name and role |
| TrackMetadata.AddPeople | Jellyfin.Plugin.Spotify/MetadataProviders/TrackMetadataProvider.cs:95-114 | the loop adds exactly those people |
| TrackMetadata.TrackMetadataOf | Jellyfin.Plugin.Spotify/MetadataProviders/TrackMetadataProvider.cs:74-129 | the item carries the track's name, album, artists, album artists, year, date, people, image and provider ids; an impossible date throws |
| TrackMetadata.MetadataOf | Jellyfin.Plugin.Spotify/MetadataProviders/TrackMetadataProvider.cs:47-130 | no id gives empty metadata; an id without a session fails; the stored track id is the resolved one |
| TrackMetadata.GetMetadata | Jellyfin.Plugin.Spotify/MetadataProviders/TrackMetadataProvider.cs:47-130 | the provider's steps compute that metadata |
| TrackMetadata.TrackYear | Jellyfin.Plugin.Spotify/MetadataProviders/TrackMetadataProvider.cs:163 | a track's year is its album's |
| TrackMetadata.CandidateResults | Jellyfin.Plugin.Spotify/MetadataProviders/TrackMetadataProvider.cs:156-170 | at most one result per candidate, and one for each without a year |
| TrackMetadata.CandidateYears | Jellyfin.Plugin.Spotify/MetadataProviders/TrackMetadataProvider.cs:163 | with a year, every result is of that year |
| TrackMetadata.SearchResultsOf | Jellyfin.Plugin.Spotify/MetadataProviders/TrackMetadataProvider.cs:133-174 | without a session it fails; a resolved id gives exactly one result; never more than five |
| TrackMetadata.GetSearchResults | Jellyfin.Plugin.Spotify/MetadataProviders/TrackMetadataProvider.cs:133-174 | the provider's steps compute those results |
| AlbumMetadata.AlbumArtists | Jellyfin.Plugin.Spotify/MetadataProviders/AlbumMetadataProvider.cs:94-102 | one album-artist person per album artist, in order, with the artist's name |
| AlbumMetadata.AddAlbumArtists | Jellyfin.Plugin.Spotify/MetadataProviders/AlbumMetadataProvider.cs:94-102 | the loop adds exactly those people |
| AlbumMetadata.AlbumMetadataOf | Jellyfin.Plugin.Spotify/MetadataProviders/AlbumMetadataProvider.cs:78-116 | the item carries the album's name, artists, popularity as rating, first review or empty text as overview, year, date, people, image and provider ids; an impossible date throws |
| AlbumMetadata.MetadataOf | Jellyfin.Plugin.Spotify/MetadataProviders/AlbumMetadataProvider.cs:43-117 | no id gives empty metadata; an id without a session fails; the stored album id is the resolved one |
| AlbumMetadata.GetMetadata | Jellyfin.Plugin.Spotify/MetadataProviders/AlbumMetadataProvider.cs:43-117 | the provider's steps compute that metadata |
| AlbumMetadata.CandidateResults | Jellyfin.Plugin.Spotify/MetadataProviders/AlbumMetadataProvider.cs:151-169 | at most one result per candidate, and one for each without a year |
| AlbumMetadata.CandidateYears | Jellyfin.Plugin.Spotify/MetadataProviders/AlbumMetadataProvider.cs:158 | with a year, every result is of that year |
| AlbumMetadata.SearchResultsOf | Jellyfin.Plugin.Spotify/MetadataProviders/AlbumMetadataProvider.cs:120-173 | without a session it fails; a resolved id gives exactly one result; never more than five |
| AlbumMetadata.GetSearchResults | Jellyfin.Plugin.Spotify/MetadataProviders/AlbumMetadataProvider.cs:120-173 | the provider's steps compute those results |
| ArtistMetadata.SearchResultsOf | Jellyfin.Plugin.Spotify/MetadataProviders/ArtistMetadataProvider.cs:113-155 | without a session it fails; a resolved id gives exactly one result; never more than five |
| ArtistMetadata.GetSearchResults | Jellyfin.Plugin.Spotify/MetadataProviders/ArtistMetadataProvider.cs:113-155 | the provider's steps compute those results |
| ArtistMetadata.CollectResults | Jellyfin.Plugin.Spotify/MetadataProviders/ArtistMetadataProvider.cs:145-152 | the loop gives one result per candidate artist, in order |
| ArtistMetadata.StoredId | Jellyfin.Plugin.Spotify/MetadataProviders/ArtistMetadataProvider.cs:71 | reading the first result's artist id succeeds exactly when it resolves, and gives that id |
| ArtistMetadata.ResolvedId | Jellyfin.Plugin.Spotify/MetadataProviders/ArtistMetadataProvider.cs:44-72 | a resolved id is used as it is |
| ArtistMetadata.FallbackIsFirstCandidate | Jellyfin.Plugin.Spotify/MetadataProviders/ArtistMetadataProvider.cs:60-72 | without an id the artist is the first search candidate's, and there is none when the search is empty |
| ArtistMetadata.ArtistImages | Jellyfin.Plugin.Spotify/MetadataProviders/ArtistMetadataProvider.cs:97-105 | a primary image comes first exactly when there is a portrait, and is its address; a backdrop comes last exactly when there is a header, and is its address; nothing else |
| ArtistMetadata.ArtistMetadataOf | Jellyfin.Plugin.Spotify/MetadataProviders/ArtistMetadataProvider.cs:86-109 | the item carries the artist's name, biography, images and only its artist id; a missing artist union throws |
| ArtistMetadata.MetadataFor | Jellyfin.Plugin.Spotify/MetadataProviders/ArtistMetadataProvider.cs:74-109 | without a session it fails; otherwise the metadata built from the fetched artist and overview |
| ArtistMetadata.FetchMetadata | Jellyfin.Plugin.Spotify/MetadataProviders/ArtistMetadataProvider.cs:74-109 | the fetch steps compute that metadata |
| ArtistMetadata.MetadataOf | Jellyfin.Plugin.Spotify/MetadataProviders/ArtistMetadataProvider.cs:40-110 | without a session it fails; empty metadata only when no id is resolved; a resolved id is the one stored |
| ArtistMetadata.GetMetadata | Jellyfin.Plugin.Spotify/MetadataProviders/ArtistMetadataProvider.cs:40-110 | the provider's steps compute that metadata |
| TrackImages.ImagesOf | Jellyfin.Plugin.Spotify/ImageProviders/TrackImageProvider.cs:31-87 | no images for items that are not audio; fails without a session; a resolved id gives its album's image, if any; at most five from a search |
| TrackImages.ImagesArePrimary | Jellyfin.Plugin.Spotify/ImageProviders/TrackImageProvider.cs:31-87 | every track image is a primary image |
| TrackImages.CollectedPrimary | Jellyfin.Plugin.Spotify/ImageProviders/TrackImageProvider.cs:68-83 | every image collected from the candidates is primary |
| TrackImages.GetImages | Jellyfin.Plugin.Spotify/ImageProviders/TrackImageProvider.cs:31-87 | the provider's steps compute those images |
| TrackImages.CollectImages | Jellyfin.Plugin.Spotify/ImageProviders/TrackImageProvider.cs:68-83 | the loop collects the candidates' images, in order |
| AlbumImages.ImagesOf | Jellyfin.Plugin.Spotify/ImageProviders/AlbumImageProvider.cs:32-109 | no images for items that are not albums; fails without a session; a resolved id gives its image, if any; at most five from a search |
| AlbumImages.CandidateImages | Jellyfin.Plugin.Spotify/ImageProviders/AlbumImageProvider.cs:84-105 | at most one image per candidate |
| AlbumImages.CandidateImagesOfYear | Jellyfin.Plugin.Spotify/ImageProviders/AlbumImageProvider.cs:84-105 | every image is primary and is the image of a candidate of the given year |
| AlbumImages.GetImages | Jellyfin.Plugin.Spotify/ImageProviders/AlbumImageProvider.cs:32-109 | the provider's steps compute those images |
| ArtistImages.CascadePaths | Jellyfin.Plugin.Spotify/ImageProviders/ArtistImageProvider.cs:43 | every child's path and every child path of the folder is scanned, each once |
| ArtistImages.ChildrenFirst | Jellyfin.Plugin.Spotify/ImageProviders/ArtistImageProvider.cs:43 | children with distinct paths are scanned first, in order |
| ArtistImages.DistinctOfDistinct | Jellyfin.Plugin.Spotify/ImageProviders/ArtistImageProvider.cs:43 | `Distinct` leaves a list without duplicates unchanged |
| ArtistImages.HeaderOf | Jellyfin.Plugin.Spotify/ImageProviders/ArtistImageProvider.cs:68 | a header image exists exactly when the union and its header have sources, and is a backdrop |
| ArtistImages.ArtistImagesOf | Jellyfin.Plugin.Spotify/ImageProviders/ArtistImageProvider.cs:67-72 | no images without a portrait; otherwise the primary portrait, then the backdrop header when there is one |
| ArtistImages.FetchCandidates | Jellyfin.Plugin.Spotify/ImageProviders/ArtistImageProvider.cs:91-92 | each candidate is the artist requested by hex form paired with the overview requested by base-62 form |
| ArtistImages.ImagesOf | Jellyfin.Plugin.Spotify/ImageProviders/ArtistImageProvider.cs:32-112 | no images for items that are not artists; fails without a session; a resolved id gives its portrait and header; at most ten from a search |
| ArtistImages.CandidateImages | Jellyfin.Plugin.Spotify/ImageProviders/ArtistImageProvider.cs:88-108 | at most two images per candidate |
| ArtistImages.GetImages | Jellyfin.Plugin.Spotify/ImageProviders/ArtistImageProvider.cs:32-112 | the provider's steps compute those images |
| ArtistImages.CollectImages | Jellyfin.Plugin.Spotify/ImageProviders/ArtistImageProvider.cs:88-108 | the loop collects the candidates' images, in order |
| ArtistImages.SearchHeaderAsWritten | Jellyfin.Plugin.Spotify/ImageProviders/ArtistImageProvider.cs:98 | as written, the header lookup throws exactly for a union without a header, and otherwise agrees with the corrected one |
| ArtistImages.CandidateImagesAsWritten | Jellyfin.Plugin.Spotify/ImageProviders/ArtistImageProvider.cs:94-103 | as written, a candidate with a portrait and a header-less union throws; otherwise the corrected images |
| ArtistImages.HeaderlessCandidateThrows | Jellyfin.Plugin.Spotify/ImageProviders/ArtistImageProvider.cs:98 | a concrete candidate for which the search loop throws, while the corrected loop gives its portrait |
| Configuration.PluginConfiguration.constructor | Jellyfin.Plugin.Spotify/Configuration/PluginConfiguration.cs:17-20 | a new configuration has the given device id and no credentials |
| Configuration.PluginConfiguration.ClearCredentials | Jellyfin.Plugin.Spotify/Configuration/PluginConfiguration.cs:29-34 | the credentials are cleared whatever the username; the device id stays |
| Configuration.PluginConfiguration.SaveCredentials | Jellyfin.Plugin.Spotify/Configuration/PluginConfiguration.cs:46-51 | the credentials are stored; the device id stays |
| Configuration.PluginConfiguration.LoadCredentials | Jellyfin.Plugin.Spotify/Configuration/PluginConfiguration.cs:36-39 | the stored credentials are returned exactly when the username is theirs |
| Configuration.PluginConfiguration.LoadLastUsername | Jellyfin.Plugin.Spotify/Configuration/PluginConfiguration.cs:41-44 | the stored credentials' username, when there are any |
| Configuration.SaveThenLoad | Jellyfin.Plugin.Spotify/Configuration/PluginConfiguration.cs:36-51 | saved credentials load for their own username and no other, and their username is the last one |
| Configuration.ClearThenLoad | Jellyfin.Plugin.Spotify/Configuration/PluginConfiguration.cs:29-44 | after clearing, nothing loads and there is no last username |

## Left out

- `GetImageResponse` and `SessionManager.GetAsync` forward an HTTP request to the session; the model has no HTTP layer.
- Asynchrony, cancellation tokens and logging are not modelled. Each `await` is taken as finished before the next step.
- Connecting a session is outside the model. `Session.Create` and the session's own `ConnectAsync` become the `created` parameter, and a connection failure does not change which session is active.
- `Guid.NewGuid` becomes the constructor's `deviceId` parameter. `SaveConfiguration`, which persists the plugin configuration, is not modelled.
- The `DeviceId`-based `SessionConfig` is not modelled. It only labels the session.
- The track's and the artist's `CommunityRating` is not modelled, because it is floating point (`Popularity / 10f`). The album's rating, an integer, is modelled.
- These item fields are not modelled, because they are copied without logic: `IndexNumber`, `ParentIndexNumber`, `Tags`, `OriginalTitle`, `HasLyrics` and `OfficialRating`.
- The nested `AlbumArtist` and `Artists` search results that the search-result builders attach are left out. They reuse the artist result, which is modelled.
- `AddPerson` is modelled as an append. Jellyfin's de-duplication of people is host code and is not part of this model.
- The biography is taken as a present string. The null checks of the protobuf and partner objects below the artist union are outside the model; the missing artist union itself is modelled.
- A track record is taken to carry its album, and an album record its date. These are message fields, which are null when unset in the C# protobuf classes. On such a record, the reads of `Album.Name`, `Album.Date.Year` and `Date.ToDateTime()` would throw; the model does not represent such records.
- Gids are taken as 16 bytes. `FromByteString` on a malformed gid would throw, and the model does not represent such records.
- `TryFromByteString` is not modelled as a separate operation. The providers never call it, and its body is `TryFromByteArray` on the gid's bytes.
- `Uri.EscapeDataString` and the search address are inside the `search` parameter of the remote service. The search is taken as answering parsed results, or `null`.
- Protobuf parsing and the library's `Track` tag reader are host code. They become the `Remote` record and the `tagFields` function.
- `GetArtistByName`, `GetAlbumArtistByName` and `GetChildPaths` are not part of this model. They become parameters of `Cascade.Host`.
- `Text.ToLowerInvariant`: only ASCII letters are lower-cased. Culture-invariant case mapping beyond ASCII is not modelled, because `string` here is a sequence of characters with no Unicode tables.
- `Supports`, `GetSupportedImages` and the `Name` properties of the providers are not modelled. They are constant answers with no logic.
- The authentication controller, the URL providers, the external id classes, the service registrator and the configuration page are not part of this model.

## Findings

| source | as written | input that shows it | evidently intended | confidence | as-written member | corrected member |
|---|---|---|---|---|---|---|
| Jellyfin.Plugin.Spotify/TagHelper.cs:134-139 | for an empty tag value `TryGetSanitizedAdditionalFields` returns `true` with a `null` value, and its callers then call a method on `null`: `StartsWith` at lines 35, 41 and 47, and `Contains` at lines 55 and 86 | a file whose `SPOTIFY_ID` tag is the empty string; or a valid `SPOTIFY_ID` with an empty `URL` tag; or an empty album, artist or album-artist tag | an empty tag counts as absent, so no id is read from it and extraction goes on | not executed | Tags.ExtractSpotifyIdsAsWritten, Tags.TrackTagIdAsWritten, Tags.EmptyTrackTag, Tags.EmptyUrlTag, Tags.EmptyIdTag | Tags.SanitizedField, Tags.ExtractSpotifyIds |
| Jellyfin.Plugin.Spotify/ImageProviders/ArtistImageProvider.cs:98 | the search loop writes `ArtistUnion?.HeaderImage.GetRemoteImageInfo()`, and the extension method dereferences its receiver, so a union without a header image throws | a search candidate whose artist has a portrait and whose overview has an artist union without a header image | `HeaderImage?.GetRemoteImageInfo()`, as on line 68: no header image, and the portrait is still returned | not executed | ArtistImages.CandidateImagesAsWritten, ArtistImages.HeaderlessCandidateThrows | ArtistImages.HeaderOf, ArtistImages.ArtistImagesOf |
