/**
 * The shape the search proxy gives each track the music provider returns (server.js:397-404):
 * `{ id, name, artist, album, albumArt, spotifyUrl }`.
 */
module Tracks {
  import opened Wrappers
  import opened Strings

  /**
   * The part of one `tracks.items` entry of the provider's answer that the mapping reads:
   * `id`, `name`, the `name` of each of `artists`, `album.name`, the `url` of each of
   * `album.images` (None when absent or null) and `external_urls.spotify`.
   */
  datatype RawTrack = RawTrack(
    id: string,
    name: string,
    artistNames: seq<string>,
    albumName: string,
    albumImageUrls: seq<Option<string>>,
    spotifyUrl: string)

  datatype Track = Track(
    id: string,
    name: string,
    artist: string,
    album: string,
    albumArt: Option<string>,
    spotifyUrl: string)

  const ArtistSeparator := ", "

  /** `album.images[0]?.url || null`: the first image's address when it is a non-empty string, else null. */
  function AlbumArt(imageUrls: seq<Option<string>>): (art: Option<string>)
    ensures art != Some("")
    ensures art.Some? ==> |imageUrls| > 0 && art == imageUrls[0]
  {
    if |imageUrls| > 0 && imageUrls[0].Some? && imageUrls[0].value != "" then imageUrls[0] else None
  }

  /** Only the first image is looked at: the rest of the list never matters. */
  lemma AlbumArtFirstOnly(imageUrls: seq<Option<string>>)
    requires |imageUrls| > 0
    ensures AlbumArt(imageUrls) == AlbumArt(imageUrls[..1])
  {
  }

  /** One track of the search answer: `{ id, name, artist, album, albumArt, spotifyUrl }`. */
  function NormalizeTrack(t: RawTrack): (r: Track)
  {
    Track(t.id, t.name, Join(t.artistNames, ArtistSeparator), t.albumName, AlbumArt(t.albumImageUrls), t.spotifyUrl)
  }

  /** `items.map(...)`: one result per item, in the provider's order. */
  function NormalizeTracks(items: seq<RawTrack>): (r: seq<Track>)
    ensures |r| == |items|
    ensures forall i :: 0 <= i < |items| ==> r[i] == NormalizeTrack(items[i])
  {
    if items == [] then [] else [NormalizeTrack(items[0])] + NormalizeTracks(items[1..])
  }

  /** Each string with one space put in front. */
  function WithLeadingSpace(xs: seq<string>): (r: seq<string>)
    ensures |r| == |xs|
  {
    if xs == [] then [] else [" " + xs[0]] + WithLeadingSpace(xs[1..])
  }

  lemma {:induction false} WithLeadingSpaceInjective(xs: seq<string>, ys: seq<string>)
    requires WithLeadingSpace(xs) == WithLeadingSpace(ys)
    ensures xs == ys
    decreases |xs|
  {
    if xs != [] {
      assert WithLeadingSpace(xs)[0] == " " + xs[0] && WithLeadingSpace(ys)[0] == " " + ys[0];
      assert xs[0] == (" " + xs[0])[1..] && ys[0] == (" " + ys[0])[1..];
      assert WithLeadingSpace(xs[1..]) == WithLeadingSpace(xs)[1..];
      assert WithLeadingSpace(ys[1..]) == WithLeadingSpace(ys)[1..];
      WithLeadingSpaceInjective(xs[1..], ys[1..]);
      assert xs == [xs[0]] + xs[1..] && ys == [ys[0]] + ys[1..];
    }
  }

  /**
   * When no artist name contains a comma, the names can be read back from `artist`:
   * splitting it at the commas gives the first name, then each further name after one space.
   */
  lemma {:induction false} ArtistNamesRecoverable(names: seq<string>)
    requires |names| >= 1
    requires forall i :: 0 <= i < |names| ==> ',' !in names[i]
    ensures Split(Join(names, ArtistSeparator), ',') == [names[0]] + WithLeadingSpace(names[1..])
  {
    if |names| == 1 {
      SplitAbsent(names[0], ',');
    } else {
      var tail := Join(names[1..], ArtistSeparator);
      assert Join(names, ArtistSeparator) == names[0] + [','] + ([' '] + tail);
      SplitAfterFirst(names[0], ',', [' '] + tail);
      ArtistNamesRecoverable(names[1..]);
      SplitCons(' ', tail, ',');
      assert names[1..][1..] == names[2..];
    }
  }

  /**
   * The mapping loses nothing but the images after the first: two provider items with at least
   * one artist and no comma in any artist name that map to the same track agree on id, name,
   * album, link and the list of artist names.
   */
  lemma SameTrackSameItem(t: RawTrack, u: RawTrack)
    requires |t.artistNames| >= 1 && |u.artistNames| >= 1
    requires forall i :: 0 <= i < |t.artistNames| ==> ',' !in t.artistNames[i]
    requires forall i :: 0 <= i < |u.artistNames| ==> ',' !in u.artistNames[i]
    requires NormalizeTrack(t) == NormalizeTrack(u)
    ensures t.id == u.id && t.name == u.name && t.albumName == u.albumName && t.spotifyUrl == u.spotifyUrl
    ensures t.artistNames == u.artistNames
  {
    ArtistNamesRecoverable(t.artistNames);
    ArtistNamesRecoverable(u.artistNames);
    var a := [t.artistNames[0]] + WithLeadingSpace(t.artistNames[1..]);
    var b := [u.artistNames[0]] + WithLeadingSpace(u.artistNames[1..]);
    assert a == b;
    assert a[0] == b[0] && a[1..] == b[1..];
    WithLeadingSpaceInjective(t.artistNames[1..], u.artistNames[1..]);
    assert t.artistNames == [t.artistNames[0]] + t.artistNames[1..];
    assert u.artistNames == [u.artistNames[0]] + u.artistNames[1..];
  }
}
