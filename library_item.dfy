/**
 * The host library item an image provider is asked about, reduced to what
 * the providers read: its kind, its provider ids, its name, its path, the
 * year given in the search form, and its children.
 */
module LibraryItems {
  import opened Wrappers
  import Cascade

  datatype ItemKind = AudioItem | MusicAlbumItem | MusicArtistItem | OtherItem

  /** A `BaseItem`. */
  datatype BaseItem = BaseItem(
    kind: ItemKind,
    providerIds: map<string, string>,
    name: string,
    path: string,
    productionYear: Option<int>,
    children: seq<Cascade.ItemRef>)

  /** The item as the id cascade sees it. */
  function RefOf(item: BaseItem): (r: Cascade.ItemRef)
    ensures r.providerIds == item.providerIds && r.path == item.path
  {
    Cascade.ItemRef(item.providerIds, item.path)
  }
}
