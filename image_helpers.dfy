/**
 * Choosing the image renditions to offer: the largest rendition as the
 * image, the smallest as its thumbnail, the pixel size of a protocol size
 * class, and the order in which an item's image lists are tried.
 */
module ImageHelpers {
  import opened Wrappers
  import FileIds
  import opened Protocol
  import opened Sessions

  datatype ImageType = Primary | Backdrop

  /** A `RemoteImageInfo`: what an image provider reports for one image. */
  datatype RemoteImageInfo = RemoteImageInfo(
    url: string,
    thumbnailUrl: string,
    imageType: ImageType,
    width: Option<int>,
    height: Option<int>)

  // ---------------------------------------------------------------- MaxBy / MinBy

  /** The position `MaxBy` settles on: the first element whose key no other element exceeds. */
  function MaxIndex<T>(xs: seq<T>, key: T -> int): (i: nat)
    requires |xs| > 0
    ensures i < |xs|
    ensures forall j :: 0 <= j < |xs| ==> key(xs[j]) <= key(xs[i])
    ensures forall j :: 0 <= j < i ==> key(xs[j]) < key(xs[i])
  {
    if |xs| == 1 then 0
    else
      var m := MaxIndex(xs[..|xs| - 1], key);
      assert forall j :: 0 <= j < |xs| - 1 ==> xs[..|xs| - 1][j] == xs[j];
      if key(xs[|xs| - 1]) > key(xs[m]) then |xs| - 1 else m
  }

  /** The position `MinBy` settles on: the first element whose key no other element is below. */
  function MinIndex<T>(xs: seq<T>, key: T -> int): (i: nat)
    requires |xs| > 0
    ensures i < |xs|
    ensures forall j :: 0 <= j < |xs| ==> key(xs[i]) <= key(xs[j])
    ensures forall j :: 0 <= j < i ==> key(xs[i]) < key(xs[j])
  {
    if |xs| == 1 then 0
    else
      var m := MinIndex(xs[..|xs| - 1], key);
      assert forall j :: 0 <= j < |xs| - 1 ==> xs[..|xs| - 1][j] == xs[j];
      if key(xs[|xs| - 1]) < key(xs[m]) then |xs| - 1 else m
  }

  /** `MaxBy`: null for an empty list. */
  function MaxBy<T>(xs: seq<T>, key: T -> int): (r: Option<T>)
    ensures r.None? <==> |xs| == 0
    ensures r.Some? ==> r.value == xs[MaxIndex(xs, key)]
  {
    if |xs| == 0 then None else Some(xs[MaxIndex(xs, key)])
  }

  /** `MinBy`: null for an empty list. */
  function MinBy<T>(xs: seq<T>, key: T -> int): (r: Option<T>)
    ensures r.None? <==> |xs| == 0
    ensures r.Some? ==> r.value == xs[MinIndex(xs, key)]
  {
    if |xs| == 0 then None else Some(xs[MinIndex(xs, key)])
  }

  /** Ties go to the earlier element, and a single element is both the best and the worst. */
  lemma SingleRendition<T>(x: T, key: T -> int)
    ensures MaxBy([x], key) == Some(x) && MinBy([x], key) == Some(x)
  {
  }

  function ImageSize(image: Image): int { image.size }
  function SourceWidth(source: DataSource): int { source.maxWidth }

  // ---------------------------------------------------------------- protocol images

  /** The pixel size of a protocol size class: default 64, small 160, large 300, xlarge 640; unknown classes have none. */
  function Resolution(size: int): (r: Option<int>)
    ensures r.Some? <==> 0 <= size <= 3
  {
    if size == 0 then Some(64)
    else if size == 1 then Some(160)
    else if size == 2 then Some(300)
    else if size == 3 then Some(640)
    else None
  }

  /** A larger size class has more pixels. */
  lemma ResolutionMonotone(a: int, b: int)
    requires 0 <= a < b <= 3
    ensures 64 <= Resolution(a).value < Resolution(b).value <= 640
  {
  }

  /** The file id of a rendition: its bytes, padded the way the byte constructor pads them. */
  function FileOf(image: Image): FileIds.FileId {
    FileIds.FileId(FileIds.Padded(image.fileId))
  }

  /**
   * The info of a list of renditions: none for an empty list; otherwise a
   * primary image at the address of the largest rendition, with a
   * thumbnail at the address of the smallest, and as width and height the
   * pixel size of the largest one's class.
   */
  function ImagesInfo(images: seq<Image>, session: Session): (r: Option<RemoteImageInfo>)
    ensures r.None? <==> |images| == 0
    ensures r.Some? ==>
      var best := images[MaxIndex(images, ImageSize)];
      var worst := images[MinIndex(images, ImageSize)];
      r.value.imageType == Primary
      && r.value.url == ImageUrl(session, FileOf(best))
      && r.value.thumbnailUrl == ImageUrl(session, FileOf(worst))
      && r.value.width == r.value.height == Resolution(best.size)
  {
    var best := MaxBy(images, ImageSize);
    var worst := MinBy(images, ImageSize);
    if best.None? || worst.None? then None
    else
      var resolution := Resolution(best.value.size);
      Some(RemoteImageInfo(ImageUrl(session, FileOf(best.value)), ImageUrl(session, FileOf(worst.value)), Primary, resolution, resolution))
  }

  /** The largest rendition's class is the largest class in the list, so no rendition has a larger pixel size. */
  lemma ImagesInfoLargest(images: seq<Image>, session: Session, k: nat)
    requires k < |images| && 0 <= images[k].size <= 3
    requires forall j :: 0 <= j < |images| ==> 0 <= images[j].size <= 3
    ensures ImagesInfo(images, session).value.width.value >= Resolution(images[k].size).value
  {
    var best := images[MaxIndex(images, ImageSize)];
    assert ImageSize(images[k]) <= ImageSize(best);
    if images[k].size < best.size {
      ResolutionMonotone(images[k].size, best.size);
    }
  }

  /** `ImageGroup?.GetRemoteImageInfo`: a missing group has no info. */
  function GroupInfo(group: Option<ImageGroup>, session: Session): (r: Option<RemoteImageInfo>)
    ensures r.Some? <==> group.Some? && |group.value.image| > 0
    ensures r.Some? ==> r == ImagesInfo(group.value.image, session)
  {
    if group.None? then None else ImagesInfo(group.value.image, session)
  }

  /** An album's image: from its cover group when that has renditions, else from its cover list. */
  function AlbumImageInfo(album: Album, session: Session): (r: Option<RemoteImageInfo>)
    ensures r.None? <==> (album.coverGroup.None? || |album.coverGroup.value.image| == 0) && |album.cover| == 0
    ensures album.coverGroup.Some? && |album.coverGroup.value.image| > 0 ==> r == ImagesInfo(album.coverGroup.value.image, session)
    ensures (album.coverGroup.None? || |album.coverGroup.value.image| == 0) ==> r == ImagesInfo(album.cover, session)
    ensures r.Some? ==> r.value.imageType == Primary
  {
    GroupInfo(album.coverGroup, session).OrElse(ImagesInfo(album.cover, session))
  }

  /** An artist's image: from the portrait group when that has renditions, else from the portrait list. */
  function ArtistImageInfo(artist: Artist, session: Session): (r: Option<RemoteImageInfo>)
    ensures r.None? <==> (artist.portraitGroup.None? || |artist.portraitGroup.value.image| == 0) && |artist.portrait| == 0
    ensures artist.portraitGroup.Some? && |artist.portraitGroup.value.image| > 0 ==> r == ImagesInfo(artist.portraitGroup.value.image, session)
    ensures (artist.portraitGroup.None? || |artist.portraitGroup.value.image| == 0) ==> r == ImagesInfo(artist.portrait, session)
    ensures r.Some? ==> r.value.imageType == Primary
  {
    GroupInfo(artist.portraitGroup, session).OrElse(ImagesInfo(artist.portrait, session))
  }

  /** A track's image is its album's. */
  function TrackImageInfo(track: Track, session: Session): (r: Option<RemoteImageInfo>)
    ensures r == AlbumImageInfo(track.album, session)
  {
    AlbumImageInfo(track.album, session)
  }

  // ---------------------------------------------------------------- header images

  /** `me.Data?.Sources`, empty where either is missing (`MaxBy` is then never called and the result is null alike). */
  function Sources(header: HeaderImage): seq<DataSource> {
    if header.data.Some? && header.data.value.sources.Some? then header.data.value.sources.value else []
  }

  /**
   * The info of a header image: none without sources; otherwise a backdrop
   * at the widest source's address, with the narrowest as thumbnail, and
   * the widest one's maximum width and height.
   */
  function HeaderImageInfo(header: HeaderImage): (r: Option<RemoteImageInfo>)
    ensures r.None? <==> |Sources(header)| == 0
    ensures r.Some? ==>
      var best := Sources(header)[MaxIndex(Sources(header), SourceWidth)];
      var worst := Sources(header)[MinIndex(Sources(header), SourceWidth)];
      r.value.imageType == Backdrop && r.value.url == best.url && r.value.thumbnailUrl == worst.url
      && r.value.width == Some(best.maxWidth) && r.value.height == Some(best.maxHeight)
  {
    var best := MaxBy(Sources(header), SourceWidth);
    var worst := MinBy(Sources(header), SourceWidth);
    if best.None? || worst.None? then None
    else Some(RemoteImageInfo(best.value.url, worst.value.url, Backdrop, Some(best.value.maxWidth), Some(best.value.maxHeight)))
  }

  /** `HeaderImage?.GetRemoteImageInfo()`: a missing header has no info. */
  function OptionalHeaderInfo(header: Option<HeaderImage>): (r: Option<RemoteImageInfo>)
    ensures r.Some? <==> header.Some? && |Sources(header.value)| > 0
    ensures r.Some? ==> r == HeaderImageInfo(header.value)
  {
    if header.None? then None else HeaderImageInfo(header.value)
  }
}
