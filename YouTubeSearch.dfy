/**
 * The YouTube search window (src/apps/YouTubeSearchApp.js): search results,
 * and a draft playlist the user builds from them, can save under a name, or
 * can play in a new player window. The search request is an outcome passed
 * in; saving goes through the playlist store.
 */
module YouTubeSearch {
  import opened Text
  import opened Media
  import opened Playlists

  /** A search result: `id.videoId` and the `snippet` fields the app shows. */
  datatype SearchItem = SearchItem(videoId: string, title: string, channelTitle: string)

  /** `{ videoId: video.id.videoId, videoInfo: video.snippet }`. */
  function EntryOf(item: SearchItem): Video
  {
    Video(item.videoId, Snippet(item.title, item.channelTitle))
  }

  /** A player window for a draft can be opened: the playlist is not empty and the index names its first track. */
  lemma DraftRequestOpens(draft: seq<Video>)
    requires |draft| > 0
    ensures var r := WindowRequest("YouTubePlayer", "YouTubePlayerApp", draft, 0, CloseOpener, PlayerWidth, PlayerHeight);
            r.currentIndex < |r.playlist| && r.playlist[r.currentIndex] == draft[0]
  {
  }

  class YouTubeSearchApp {
    var searchTerm: string
    var searchResults: seq<SearchItem>
    var currentPlaylist: seq<Video>
    var playlistName: string

    constructor()
      ensures searchTerm == "" && searchResults == [] && currentPlaylist == [] && playlistName == ""
    {
      searchTerm, searchResults, currentPlaylist, playlistName := "", [], [], "";
    }

    /** A successful search replaces the results; a failed one leaves them. */
    method HandleSearch(response: Option<seq<SearchItem>>)
      modifies this
      ensures searchResults == if response.Some? then response.value else old(searchResults)
      ensures searchTerm == old(searchTerm) && currentPlaylist == old(currentPlaylist) && playlistName == old(playlistName)
    {
      if response.Some? {
        searchResults := response.value;
      }
    }

    /** `addToPlaylist`: one entry for the result goes at the end of the draft. */
    method AddToPlaylist(item: SearchItem)
      modifies this
      ensures currentPlaylist == old(currentPlaylist) + [EntryOf(item)]
      ensures searchTerm == old(searchTerm) && searchResults == old(searchResults) && playlistName == old(playlistName)
    {
      currentPlaylist := currentPlaylist + [EntryOf(item)];
    }

    /**
     * `saveCurrentPlaylist`: with a name and a non-empty draft, the draft is
     * saved under the name and both are cleared; otherwise nothing happens.
     */
    method SaveCurrentPlaylist(store: PlaylistStore)
      modifies this, store
      ensures old(playlistName) != "" && |old(currentPlaylist)| > 0 ==>
        && store.playlists == Saved(old(store.playlists), old(playlistName), old(currentPlaylist))
        && playlistName == "" && currentPlaylist == []
      ensures !(old(playlistName) != "" && |old(currentPlaylist)| > 0) ==>
        && store.playlists == old(store.playlists)
        && playlistName == old(playlistName) && currentPlaylist == old(currentPlaylist)
      ensures searchTerm == old(searchTerm) && searchResults == old(searchResults)
    {
      if playlistName != "" && |currentPlaylist| > 0 {
        store.SavePlaylist(playlistName, currentPlaylist);
        playlistName := "";
        currentPlaylist := [];
      }
    }

    /**
     * `playPlaylist`: a non-empty draft asks for a YouTube player window at
     * its first track, sized for the player and closing this window's way;
     * an empty draft asks for nothing.
     */
    method PlayPlaylist() returns (request: Option<WindowRequest>)
      ensures request.Some? <==> |currentPlaylist| > 0
      ensures request.Some? ==>
        && request.value.name == "YouTubePlayer" && request.value.component == "YouTubePlayerApp"
        && request.value.playlist == currentPlaylist && request.value.currentIndex == 0
        && request.value.onClose == CloseOpener
        && request.value.width == PlayerWidth && request.value.height == PlayerHeight
    {
      if |currentPlaylist| > 0 {
        request := Some(WindowRequest("YouTubePlayer", "YouTubePlayerApp", currentPlaylist, 0, CloseOpener, PlayerWidth, PlayerHeight));
      } else {
        request := None;
      }
    }
  }
}
