/**
 * Records shared by the playlist store and the player, search and manager
 * apps: a playlist entry (`{videoId, videoInfo}`) and the request a window's
 * content makes when it asks the desktop for a new player window.
 */
module Media {

  /**
   * The `videoInfo` of a playlist entry. Entries added from a search result
   * carry the result's snippet; imported entries carry a title and the URL
   * of the widest thumbnail.
   */
  datatype VideoInfo =
    | Snippet(title: string, channelTitle: string)
    | Imported(title: string, thumbnailUrl: string)

  /** One playlist entry. */
  datatype Video = Video(videoId: string, videoInfo: VideoInfo)

  /** The `onClose` handed to a requested player window. */
  datatype CloseAction =
    | CloseOpener   // the opener's own onClose
    | DoNothing     // `() => {}`

  /**
   * The four arguments of `openNewWindow(name, Component, props, size)` as the
   * search and manager apps pass them: window name, component, the player's
   * props (playlist, currentIndex, onClose) and the requested size in pixels.
   */
  datatype WindowRequest = WindowRequest(
    name: string,
    component: string,
    playlist: seq<Video>,
    currentIndex: nat,
    onClose: CloseAction,
    width: nat,
    height: nat)

  /** The size every player window is requested with. */
  const PlayerWidth: nat := 376
  const PlayerHeight: nat := 535

  /** The `YT.PlayerState` values the players test for. */
  const Ended: int := 0
  const Playing: int := 1
}
