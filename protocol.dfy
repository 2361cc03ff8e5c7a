/**
 * The records the remote service answers with, reduced to the fields the
 * plugin reads, and the remote service itself as the functions from a
 * request to its parsed reply.
 */
module Protocol {
  import opened Wrappers
  import opened Positional
  import SpotifyIds

  /** A protocol gid: the 16-byte big-endian form of a Spotify id. */
  type Gid = b: seq<byte> | |b| == SpotifyIds.Size witness seq(16, _ => 0)

  /** `SpotifyId.FromByteString(gid)`; a 16-byte gid always converts. */
  function GidId(gid: Gid): (id: SpotifyIds.SpotifyId)
    ensures SpotifyIds.FromBytes(gid) == Success(id)
    ensures SpotifyIds.BigEndianBytes(id.id) == gid
  {
    SpotifyIds.BigEndianBytesOfFromBytes(gid);
    SpotifyIds.FromBytes(gid).value
  }

  /** A release date; month and day are optional fields. */
  datatype Date = Date(year: int, month: Option<int>, day: Option<int>, hour: int, minute: int)

  /** One rendition of an image; `size` is the protocol's size enum (0 default, 1 small, 2 large, 3 xlarge). */
  datatype Image = Image(fileId: seq<byte>, size: int)

  datatype ImageGroup = ImageGroup(image: seq<Image>)

  /** An artist as referenced from a track or album. */
  datatype ArtistRef = ArtistRef(gid: Gid, name: string)

  datatype ArtistRole =
    | RoleUnknown
    | MainArtist
    | FeaturedArtist
    | Remixer
    | Actor
    | Composer
    | Conductor
    | Orchestra
    | OtherRole(code: int)

  datatype ArtistWithRole = ArtistWithRole(artistName: string, role: ArtistRole)

  /** An album; `popularity` is an optional field, `review` a repeated one. */
  datatype Album = Album(
    gid: Gid,
    name: string,
    artist: seq<ArtistRef>,
    date: Date,
    recordLabel: string,
    popularity: Option<int>,
    review: seq<string>,
    coverGroup: Option<ImageGroup>,
    cover: seq<Image>)

  /** The year of an album's release date, the year the search filters compare. */
  function AlbumYear(album: Album): int { album.date.year }

  datatype Track = Track(
    gid: Gid,
    name: string,
    album: Album,
    artist: seq<ArtistRef>,
    artistWithRole: seq<ArtistWithRole>)

  /** One biography of an artist; its text is an optional field. */
  datatype Biography = Biography(text: Option<string>)

  datatype Artist = Artist(
    gid: Gid,
    name: string,
    biography: seq<Biography>,
    portraitGroup: Option<ImageGroup>,
    portrait: seq<Image>)

  /** Header images of the partner API's artist overview. */
  datatype DataSource = DataSource(url: string, maxWidth: int, maxHeight: int)
  datatype HeaderData = HeaderData(sources: Option<seq<DataSource>>)
  datatype HeaderImage = HeaderImage(data: Option<HeaderData>)
  datatype ArtistUnion = ArtistUnion(headerImage: Option<HeaderImage>, biography: string)
  datatype ArtistOverview = ArtistOverview(artistUnion: Option<ArtistUnion>)

  /** The JSON of the web search API; every level may be missing. */
  datatype SearchItem = SearchItem(id: Option<string>)
  datatype SearchPage = SearchPage(items: Option<seq<SearchItem>>)
  datatype ApiSearchResults = ApiSearchResults(tracks: Option<SearchPage>, albums: Option<SearchPage>, artists: Option<SearchPage>)

  /**
   * The remote service. Metadata is requested by the hex form of an id, the
   * artist overview by its base-62 form, a search by query text and type.
   */
  datatype Remote = Remote(
    trackMetadata: string -> Track,
    albumMetadata: string -> Album,
    artistMetadata: string -> Artist,
    artistOverview: string -> ArtistOverview,
    search: (string, string) -> Option<ApiSearchResults>)
}
