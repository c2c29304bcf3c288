/** Album lookup and the completion rule of album creation (`KYPhotoLibrary+Album.swift`). */
module Albums {
  import opened Wrappers
  import opened Errors
  import opened Photos

  predicate HasTitle(album: Album, name: string) {
    album.localizedTitle == Some(name)
  }

  /** The first album, in enumeration order, whose title is `name`. */
  function FindAlbum(albums: seq<Album>, name: string): (r: Option<Album>)
    ensures r.Some? ==> r.value in albums && HasTitle(r.value, name)
    ensures r.None? <==> forall a :: a in albums ==> !HasTitle(a, name)
  {
    First(albums, (a: Album) => HasTitle(a, name))
  }

  /**
   * `getAlbum(with:)`: enumerates the albums, remembers the first whose title
   * matches and sets the stop flag so that enumeration ends there.
   */
  method GetAlbum(albums: seq<Album>, albumName: string) returns (matched: Option<Album>)
    ensures matched == FindAlbum(albums, albumName)
  {
    matched := None;
    var stop := false;
    var i := 0;
    while i < |albums| && !stop
      invariant 0 <= i <= |albums|
      invariant !stop ==> matched == None && forall j :: 0 <= j < i ==> !HasTitle(albums[j], albumName)
      invariant stop ==> 0 < i && matched == Some(albums[i - 1]) && HasTitle(albums[i - 1], albumName)
      invariant stop ==> forall j :: 0 <= j < i - 1 ==> !HasTitle(albums[j], albumName)
    {
      if albums[i].localizedTitle == Some(albumName) {
        matched := Some(albums[i]);
        stop := true;
      }
      i := i + 1;
    }
    if stop {
      FirstAt(albums, (a: Album) => HasTitle(a, albumName), i - 1);
    }
  }

  /** The album found is the first with the title: none before it has that title. */
  lemma FindAlbumIsFirst(albums: seq<Album>, name: string, i: nat)
    requires i < |albums| && HasTitle(albums[i], name)
    requires forall j :: 0 <= j < i ==> !HasTitle(albums[j], name)
    ensures FindAlbum(albums, name) == Some(albums[i])
  {
    FirstAt(albums, (a: Album) => HasTitle(a, name), i);
  }

  /** Albums enumerated after a match are never looked at, whatever their titles. */
  lemma FindAlbumIgnoresLater(albums: seq<Album>, later: seq<Album>, name: string)
    requires FindAlbum(albums, name).Some?
    ensures FindAlbum(albums + later, name) == FindAlbum(albums, name)
  {
    FirstIgnoresLater(albums, later, (a: Album) => HasTitle(a, name));
  }

  /** What `createAlbum` passes to its completion: the new collection, if any, and the error. */
  datatype AlbumCreation = AlbumCreation(collection: Option<Album>, error: Option<Error>)

  /**
   * The completion of `createAlbum`: on success with a placeholder, the album
   * fetched by the placeholder's identifier; otherwise no album. The error is
   * passed on as the change request reported it.
   */
  function CreateAlbumCompletion(albums: seq<Album>, success: bool, placeholderIdentifier: Option<string>,
                                 error: Option<Error>): (r: AlbumCreation)
    ensures r.error == error
    ensures r.collection.Some? ==> success && placeholderIdentifier.Some?
    ensures r.collection.Some? ==> r.collection.value in albums
    ensures r.collection.Some? ==> r.collection.value.localIdentifier == placeholderIdentifier.value
    ensures (success && placeholderIdentifier.Some?
             && exists a :: a in albums && a.localIdentifier == placeholderIdentifier.value) ==> r.collection.Some?
  {
    var collection :=
      if success && placeholderIdentifier.Some? then
        First(albums, (a: Album) => a.localIdentifier == placeholderIdentifier.value)
      else None;
    AlbumCreation(collection, error)
  }
}
