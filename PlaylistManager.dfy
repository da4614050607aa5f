/**
 * The playlist manager window (src/apps/PlaylistManagerApp.js): creating an
 * empty playlist under a new name, selecting a playlist, and playing one in
 * a radio player window. The playlists are those of the playlist store.
 */
module PlaylistManager {
  import opened Text
  import opened Media
  import opened Playlists

  /**
   * Saving an empty list under a name that holds no list is the same as
   * creating that playlist: the manager's guarded save never overwrites.
   */
  lemma GuardedSaveIsCreate(m: map<string, Slot>, name: string)
    requires !Get(m, name).Tracks?
    ensures Saved(m, name, []) == Created(m, name)
  {
  }

  /**
   * The radio player window `playPlaylist` asks for: the named playlist, if
   * it holds at least one track, from its first track, with a close action
   * that does nothing.
   */
  function PlayRequest(playlists: map<string, Slot>, name: string): (r: Option<WindowRequest>)
    ensures r.Some? <==> Get(playlists, name).Tracks? && |Get(playlists, name).list| > 0
    ensures r.Some? ==>
      && r.value.name == "OldRadioPlayer" && r.value.component == "OldRadioPlayerApp"
      && r.value.playlist == Get(playlists, name).list
      && r.value.currentIndex == 0 && r.value.onClose == DoNothing
      && r.value.width == PlayerWidth && r.value.height == PlayerHeight
      && r.value.currentIndex < |r.value.playlist|
  {
    var slot := Get(playlists, name);
    if slot.Tracks? && |slot.list| > 0 then
      Some(WindowRequest("OldRadioPlayer", "OldRadioPlayerApp", slot.list, 0, DoNothing, PlayerWidth, PlayerHeight))
    else None
  }

  class PlaylistManagerApp {
    var selectedPlaylist: Option<string>
    var newPlaylistName: string

    constructor()
      ensures selectedPlaylist == None && newPlaylistName == ""
    {
      selectedPlaylist, newPlaylistName := None, "";
    }

    /**
     * `handleCreatePlaylist`: a non-empty name that holds no list is saved
     * with an empty list and the input is cleared; otherwise nothing happens.
     * No playlist that held a list changes.
     */
    method HandleCreatePlaylist(store: PlaylistStore)
      modifies this, store
      ensures old(newPlaylistName) != "" && !old(Get(store.playlists, newPlaylistName)).Tracks? ==>
        && store.playlists == Saved(old(store.playlists), old(newPlaylistName), [])
        && newPlaylistName == ""
      ensures !(old(newPlaylistName) != "" && !old(Get(store.playlists, newPlaylistName)).Tracks?) ==>
        store.playlists == old(store.playlists) && newPlaylistName == old(newPlaylistName)
      ensures forall k :: old(Get(store.playlists, k)).Tracks? ==> Get(store.playlists, k) == old(Get(store.playlists, k))
      ensures selectedPlaylist == old(selectedPlaylist)
    {
      if newPlaylistName != "" && !Get(store.playlists, newPlaylistName).Tracks? {
        store.SavePlaylist(newPlaylistName, []);
        newPlaylistName := "";
      }
    }

    /** `playPlaylist(name)`: the window request, if any; the manager's own state is untouched. */
    method PlayPlaylist(playlists: map<string, Slot>, name: string) returns (request: Option<WindowRequest>)
      ensures request == PlayRequest(playlists, name)
    {
      request := PlayRequest(playlists, name);
    }

    /** A click on a playlist row selects it. */
    method SelectPlaylist(name: string)
      modifies this
      ensures selectedPlaylist == Some(name) && newPlaylistName == old(newPlaylistName)
    {
      selectedPlaylist := Some(name);
    }
  }
}
