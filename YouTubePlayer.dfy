/**
 * The YouTube music player window (src/apps/YouTubePlayerApp.js): a track
 * index that stops at both ends of the playlist, the playing/loading/error
 * flags driven by the player's events, the guards of the mount effect, and
 * the `m:ss` clock shown under the progress bar. The YouTube player object
 * is not part of this model: its events arrive as method calls, and the
 * video the player is told to load is returned. Times are whole seconds.
 */
module YouTubePlayer {
  import opened Text
  import opened Media

  /** The next button and the ENDED event: one track forward, except from the last track. */
  function NextIndex(i: nat, n: nat): nat
  {
    if i < n - 1 then i + 1 else i
  }

  /** The previous button: one track back, except from the first track. */
  function PrevIndex(i: nat): nat
  {
    if i > 0 then i - 1 else i
  }

  /** The index after `k` presses of next. */
  function Forward(i: nat, k: nat, n: nat): nat
    decreases k
  {
    if k == 0 then i else Forward(NextIndex(i, n), k - 1, n)
  }

  /** The index after `k` presses of previous. */
  function Backward(i: nat, k: nat): nat
    decreases k
  {
    if k == 0 then i else Backward(PrevIndex(i), k - 1)
  }

  /** `k` presses of next from a track of the playlist advance `k` tracks, stopping at the last one. */
  lemma {:induction false} ForwardPresses(i: nat, k: nat, n: nat)
    requires i < n
    ensures Forward(i, k, n) == if i + k < n then i + k else n - 1
    decreases k
  {
    if k > 0 {
      ForwardPresses(NextIndex(i, n), k - 1, n);
    }
  }

  /** `k` presses of previous go back `k` tracks, stopping at the first one. */
  lemma {:induction false} BackwardPresses(i: nat, k: nat)
    ensures Backward(i, k) == if k <= i then i - k else 0
    decreases k
  {
    if k > 0 {
      BackwardPresses(PrevIndex(i), k - 1);
    }
  }

  /** Both steps keep an index inside the playlist, and stop at its ends. */
  lemma StepsStayInRange(i: nat, n: nat)
    requires i < n
    ensures NextIndex(i, n) < n && PrevIndex(i) < n
    ensures NextIndex(n - 1, n) == n - 1 && PrevIndex(0) == 0
  {
  }

  /** Away from the ends, each step undoes the other. */
  lemma StepsInverse(i: nat, n: nat)
    ensures i < n - 1 ==> PrevIndex(NextIndex(i, n)) == i
    ensures 0 < i < n ==> NextIndex(PrevIndex(i), n) == i
  {
  }

  /** `${seconds < 10 ? '0' : ''}${seconds}`. */
  function TwoDigits(s: nat): (r: string)
    requires s < 60
    ensures |r| == 2 && AllDigits(r) && ParseDigits(r) == s
  {
    var r := (if s < 10 then "0" else "") + NatToString(s);
    ParseNatToString(s);
    assert r[..|r| - 1] == (if s < 10 then "0" else NatToString(s / 10));
    r
  }

  /** `formatTime`: whole minutes, a colon, and the remaining seconds on two digits. */
  function FormatTime(t: nat): string
  {
    NatToString(t / 60) + ":" + TwoDigits(t % 60)
  }

  /**
   * The clock text has exactly one colon; the part before it reads back as
   * the minutes and the two digits after it as the seconds under 60, which
   * together give back the time.
   */
  lemma FormatTimeParts(t: nat)
    ensures var parts := Split(FormatTime(t), ':');
            && |parts| == 2 && AllDigits(parts[0]) && AllDigits(parts[1]) && |parts[1]| == 2
            && ParseDigits(parts[1]) < 60
            && ParseDigits(parts[0]) * 60 + ParseDigits(parts[1]) == t
  {
    var m, s := NatToString(t / 60), TwoDigits(t % 60);
    assert ':' !in m && ':' !in s;
    SplitAfterSeparator(m, s, ':');
    assert FormatTime(t) == m + [':'] + s;
    SplitWithout(s, ':');
    ParseNatToString(t / 60);
  }

  class YouTubePlayerApp {
    const playlist: seq<Video>
    var currentTrackIndex: nat
    var isPlaying: bool
    var isPlayerReady: bool
    var duration: int
    var currentTime: int
    var error: Option<string>
    var isLoading: bool

    ghost predicate InRange()
      reads this
    {
      currentTrackIndex < |playlist|
    }

    constructor(playlist: seq<Video>, currentIndex: nat)
      ensures this.playlist == playlist && currentTrackIndex == currentIndex
      ensures !isPlaying && !isPlayerReady && duration == 0 && currentTime == 0
      ensures error == None && isLoading
    {
      this.playlist := playlist;
      currentTrackIndex := currentIndex;
      isPlaying, isPlayerReady, duration, currentTime := false, false, 0, 0;
      error, isLoading := None, true;
    }

    /**
     * The mount effect. An empty playlist is an error; so is a failure to
     * load the player API (`apiError`, its message) and a current track with
     * no video id. Each error stops the loading. Otherwise the player is
     * created with the current track's video, returned here.
     */
    method Mount(apiError: Option<string>) returns (initialVideo: Option<string>)
      modifies this
      ensures currentTrackIndex == old(currentTrackIndex) && isPlaying == old(isPlaying)
      ensures isPlayerReady == old(isPlayerReady) && currentTime == old(currentTime) && duration == old(duration)
      ensures |playlist| == 0 ==> initialVideo == None && error == Some("Playlist is empty or undefined") && !isLoading
      ensures |playlist| > 0 && apiError.Some? ==>
        initialVideo == None && error == Some("Error initializing YouTube player: " + apiError.value) && !isLoading
      ensures |playlist| > 0 && apiError.None? && (!InRange() || playlist[currentTrackIndex].videoId == "") ==>
        initialVideo == None && error == Some("Error initializing YouTube player: Invalid video ID") && !isLoading
      ensures |playlist| > 0 && apiError.None? && InRange() && playlist[currentTrackIndex].videoId != "" ==>
        initialVideo == Some(playlist[currentTrackIndex].videoId) && error == old(error) && isLoading == old(isLoading)
    {
      initialVideo := None;
      if |playlist| == 0 {
        error := Some("Playlist is empty or undefined");
        isLoading := false;
        return;
      }
      if apiError.Some? {
        error := Some("Error initializing YouTube player: " + apiError.value);
        isLoading := false;
        return;
      }
      if currentTrackIndex >= |playlist| || playlist[currentTrackIndex].videoId == "" {
        error := Some("Error initializing YouTube player: Invalid video ID");
        isLoading := false;
        return;
      }
      initialVideo := Some(playlist[currentTrackIndex].videoId);
    }

    /** `onPlayerReady`: the player is ready and reports the video's duration. */
    method OnPlayerReady(videoDuration: int)
      modifies this
      ensures isPlayerReady && duration == videoDuration
      ensures currentTrackIndex == old(currentTrackIndex) && isPlaying == old(isPlaying)
      ensures error == old(error) && isLoading == old(isLoading) && currentTime == old(currentTime)
    {
      isPlayerReady := true;
      duration := videoDuration;
    }

    /**
     * `onPlayerStateChange`: PLAYING sets playing and ends loading, any other
     * state clears playing; ENDED moves to the next track unless at the last.
     */
    method OnPlayerStateChange(state: int)
      modifies this
      ensures isPlaying <==> state == Playing
      ensures isLoading == (if state == Playing then false else old(isLoading))
      ensures currentTrackIndex == if state == Ended then NextIndex(old(currentTrackIndex), |playlist|) else old(currentTrackIndex)
      ensures old(InRange()) ==> InRange()
      ensures isPlayerReady == old(isPlayerReady) && error == old(error)
      ensures duration == old(duration) && currentTime == old(currentTime)
    {
      if state == Playing {
        isPlaying := true;
        isLoading := false;
      } else {
        isPlaying := false;
      }
      if state == Ended {
        currentTrackIndex := NextIndex(currentTrackIndex, |playlist|);
      }
    }

    /** `onPlayerError`: the error names the player's code, and loading ends. */
    method OnPlayerError(code: int)
      modifies this
      ensures error == Some("Player error: " + IntToString(code)) && !isLoading
      ensures currentTrackIndex == old(currentTrackIndex) && isPlaying == old(isPlaying)
      ensures isPlayerReady == old(isPlayerReady) && duration == old(duration) && currentTime == old(currentTime)
    {
      error := Some("Player error: " + IntToString(code));
      isLoading := false;
    }

    /** `stopVideo`: on a ready player the time goes back to zero; otherwise nothing happens. */
    method StopVideo()
      modifies this
      ensures currentTime == if old(isPlayerReady) then 0 else old(currentTime)
      ensures currentTrackIndex == old(currentTrackIndex) && isPlaying == old(isPlaying) && isPlayerReady == old(isPlayerReady)
      ensures duration == old(duration) && error == old(error) && isLoading == old(isLoading)
    {
      if isPlayerReady {
        currentTime := 0;
      }
    }

    method PlayNextTrack()
      modifies this
      ensures currentTrackIndex == NextIndex(old(currentTrackIndex), |playlist|)
      ensures old(InRange()) ==> InRange()
      ensures isPlaying == old(isPlaying) && isPlayerReady == old(isPlayerReady) && isLoading == old(isLoading)
      ensures duration == old(duration) && currentTime == old(currentTime) && error == old(error)
    {
      if currentTrackIndex < |playlist| - 1 {
        currentTrackIndex := currentTrackIndex + 1;
      }
    }

    method PlayPreviousTrack()
      modifies this
      ensures currentTrackIndex == PrevIndex(old(currentTrackIndex))
      ensures old(InRange()) ==> InRange()
      ensures isPlaying == old(isPlaying) && isPlayerReady == old(isPlayerReady) && isLoading == old(isLoading)
      ensures duration == old(duration) && currentTime == old(currentTime) && error == old(error)
    {
      if currentTrackIndex > 0 {
        currentTrackIndex := currentTrackIndex - 1;
      }
    }

    /** A click on the `k`-th row of the playlist. */
    method SelectTrack(k: nat)
      requires k < |playlist|
      modifies this
      ensures InRange() && currentTrackIndex == k
      ensures isPlaying == old(isPlaying) && isPlayerReady == old(isPlayerReady) && isLoading == old(isLoading)
      ensures duration == old(duration) && currentTime == old(currentTime) && error == old(error)
    {
      currentTrackIndex := k;
    }

    /**
     * The track-change effect: once the player is ready and the index names
     * a track, loading starts and that track's video is loaded.
     */
    method TrackChange() returns (videoId: Option<string>)
      modifies this
      ensures videoId.Some? <==> isPlayerReady && InRange()
      ensures videoId.Some? ==> videoId.value == playlist[currentTrackIndex].videoId && isLoading
      ensures videoId.None? ==> isLoading == old(isLoading)
      ensures currentTrackIndex == old(currentTrackIndex) && isPlaying == old(isPlaying) && isPlayerReady == old(isPlayerReady)
      ensures duration == old(duration) && currentTime == old(currentTime) && error == old(error)
    {
      videoId := None;
      if isPlayerReady && currentTrackIndex < |playlist| {
        isLoading := true;
        videoId := Some(playlist[currentTrackIndex].videoId);
      }
    }
  }
}
