/**
 * The playlist store (src/PlaylistContext.js): one state slot holding an
 * object from playlist name to track list, replaced by each operation with a
 * new object built from the previous one. Persistence to the cloud is not
 * part of this model.
 *
 * The object is a `map<string, Slot>`. A property normally holds a track
 * list; renaming a playlist that does not exist copies `undefined` under the
 * new name, so a property can also hold `undefined`. JavaScript reads a
 * missing property as `undefined` too, and treats it as false: `Get` and
 * `Slot.Tracks?` give exactly that reading.
 */
module Playlists {
  import opened Text
  import opened Media

  datatype Slot = Undefined | Tracks(list: seq<Video>)

  /** `playlists[name]`. */
  function Get(m: map<string, Slot>, name: string): Slot
  {
    if name in m then m[name] else Undefined
  }

  /** `playlists[name] || []`. */
  function ListOrEmpty(s: Slot): seq<Video>
  {
    if s.Tracks? then s.list else []
  }

  /** `savePlaylist(name, tracks)`: `name` now holds `tracks`, whatever it held before. */
  function Saved(m: map<string, Slot>, name: string, tracks: seq<Video>): (r: map<string, Slot>)
    ensures r.Keys == m.Keys + {name}
    ensures Get(r, name) == Tracks(tracks)
    ensures forall k :: k != name ==> Get(r, k) == Get(m, k)
  {
    m[name := Tracks(tracks)]
  }

  /** `removePlaylist(name)`: the key is gone, the others stay; a missing key changes nothing. */
  function Removed(m: map<string, Slot>, name: string): (r: map<string, Slot>)
    ensures r.Keys == m.Keys - {name}
    ensures forall k :: k != name ==> Get(r, k) == Get(m, k)
    ensures name !in m ==> r == m
  {
    m - {name}
  }

  /** `addSongToPlaylist(p, song)`: `song` goes at the end of `p`'s list, which starts empty if `p` holds none. */
  function WithSong(m: map<string, Slot>, p: string, song: Video): (r: map<string, Slot>)
    ensures r.Keys == m.Keys + {p}
    ensures Get(r, p) == Tracks(ListOrEmpty(Get(m, p)) + [song])
    ensures forall k :: k != p ==> Get(r, k) == Get(m, k)
  {
    m[p := Tracks(ListOrEmpty(Get(m, p)) + [song])]
  }

  /** `createPlaylist(p)`: an empty list under `p`, unless `p` already holds a list. */
  function Created(m: map<string, Slot>, p: string): (r: map<string, Slot>)
    ensures Get(m, p).Tracks? ==> r == m
    ensures !Get(m, p).Tracks? ==>
      && r.Keys == m.Keys + {p} && Get(r, p) == Tracks([])
      && forall k :: k != p ==> Get(r, k) == Get(m, k)
    ensures Get(r, p).Tracks?
  {
    if Get(m, p).Tracks? then m else m[p := Tracks([])]
  }

  /**
   * `renamePlaylist(a, b)`: `b` receives what `a` held (overwriting `b`), then
   * `a` is deleted. Because the copy comes first, renaming a playlist to its
   * own name deletes it.
   */
  function Renamed(m: map<string, Slot>, a: string, b: string): (r: map<string, Slot>)
    ensures r.Keys == (m.Keys + {b}) - {a}
    ensures a != b ==> b in r && r[b] == Get(m, a)
    ensures forall k :: k != a && k != b ==> Get(r, k) == Get(m, k)
  {
    m[b := Get(m, a)] - {a}
  }

  /** Saving then removing a name is the same as removing it. */
  lemma SavedThenRemoved(m: map<string, Slot>, name: string, tracks: seq<Video>)
    ensures Removed(Saved(m, name, tracks), name) == Removed(m, name)
  {
    var l, r := Removed(Saved(m, name, tracks), name), Removed(m, name);
    forall k | k in l ensures l[k] == r[k] {
      assert Get(l, k) == Get(r, k);
    }
  }

  /** Creating twice is creating once. */
  lemma CreatedIdempotent(m: map<string, Slot>, p: string)
    ensures Created(Created(m, p), p) == Created(m, p)
  {
  }

  /** Renaming to one's own name deletes the playlist. */
  lemma RenamedToSelf(m: map<string, Slot>, a: string)
    ensures Renamed(m, a, a) == Removed(m, a)
  {
    var l, r := Renamed(m, a, a), Removed(m, a);
    forall k | k in l ensures l[k] == r[k] {
      assert Get(l, k) == Get(r, k);
    }
  }

  /** Renaming an existing playlist to a free name and back restores the store. */
  lemma RenamedRoundTrip(m: map<string, Slot>, a: string, b: string)
    requires a in m && b !in m && a != b
    ensures Renamed(Renamed(m, a, b), b, a) == m
  {
    var r := Renamed(Renamed(m, a, b), b, a);
    forall k | k in r ensures r[k] == m[k] {
      assert Get(r, k) == Get(m, k);
    }
  }

  /**
   * Renaming a missing playlist leaves `undefined` under the new name, which
   * `createPlaylist` then treats as free.
   */
  lemma RenamedFromMissing(m: map<string, Slot>, a: string, b: string)
    requires a !in m && a != b
    ensures b in Renamed(m, a, b) && Renamed(m, a, b)[b] == Undefined
    ensures Get(Created(Renamed(m, a, b), b), b) == Tracks([])
  {
  }

  /** Adding each of `songs` in turn, as the importer does. */
  function WithSongs(m: map<string, Slot>, p: string, songs: seq<Video>): map<string, Slot>
    decreases |songs|
  {
    if songs == [] then m else WithSongs(WithSong(m, p, songs[0]), p, songs[1..])
  }

  /** Adding songs one by one appends them all, in order, and touches no other playlist. */
  lemma {:induction false} WithSongsAppends(m: map<string, Slot>, p: string, songs: seq<Video>)
    ensures Get(WithSongs(m, p, songs), p) ==
            (if songs == [] then Get(m, p) else Tracks(ListOrEmpty(Get(m, p)) + songs))
    ensures forall k :: k != p ==> Get(WithSongs(m, p, songs), k) == Get(m, k)
    ensures WithSongs(m, p, songs).Keys == if songs == [] then m.Keys else m.Keys + {p}
    decreases |songs|
  {
    if songs != [] {
      var m' := WithSong(m, p, songs[0]);
      WithSongsAppends(m', p, songs[1..]);
      assert ListOrEmpty(Get(m, p)) + [songs[0]] + songs[1..] == ListOrEmpty(Get(m, p)) + songs;
    }
  }

  class PlaylistStore {
    var playlists: map<string, Slot>

    constructor()
      ensures playlists == map[]
    {
      playlists := map[];
    }

    /** The cloud copy, when it could be read, replaces the store. */
    method LoadPlaylists(cloud: Option<map<string, Slot>>)
      modifies this
      ensures playlists == if cloud.Some? then cloud.value else old(playlists)
    {
      if cloud.Some? {
        playlists := cloud.value;
      }
    }

    method RenamePlaylist(oldName: string, newName: string)
      modifies this
      ensures playlists == Renamed(old(playlists), oldName, newName)
    {
      playlists := Renamed(playlists, oldName, newName);
    }

    method SavePlaylist(name: string, tracks: seq<Video>)
      modifies this
      ensures playlists == Saved(old(playlists), name, tracks)
    {
      playlists := Saved(playlists, name, tracks);
    }

    method RemovePlaylist(name: string)
      modifies this
      ensures playlists == Removed(old(playlists), name)
    {
      playlists := Removed(playlists, name);
    }

    method AddSongToPlaylist(playlistName: string, song: Video)
      modifies this
      ensures playlists == WithSong(old(playlists), playlistName, song)
    {
      playlists := WithSong(playlists, playlistName, song);
    }

    method CreatePlaylist(playlistName: string)
      modifies this
      ensures playlists == Created(old(playlists), playlistName)
    {
      playlists := Created(playlists, playlistName);
    }
  }
}
