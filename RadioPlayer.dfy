/**
 * The track index of the vintage radio player (src/apps/OldRadioPlayerApp.js).
 * The next and previous buttons wrap around the playlist; the end of a video
 * moves on to the next track but stops at the last one. The YouTube player
 * object itself is not part of this model: its events arrive as method
 * calls, and the video the player is told to load is returned.
 */
module RadioPlayer {
  import opened Text
  import opened Media

  /** `(prevIndex + 1) % playlist.length`: one step forward, from the last track back to the first. */
  function NextIndex(i: nat, n: nat): (r: nat)
    requires n > 0
    ensures r < n
    ensures i < n ==> r == if i == n - 1 then 0 else i + 1
  {
    (i + 1) % n
  }

  /** `(prevIndex - 1 + playlist.length) % playlist.length`: one step back, from the first track to the last. */
  function PrevIndex(i: nat, n: nat): (r: nat)
    requires n > 0
    ensures r < n
    ensures i < n ==> r == if i == 0 then n - 1 else i - 1
  {
    var r := (i - 1 + n) % n;
    assert i == 0 ==> r == n - 1;
    assert 0 < i < n ==> r == i - 1;
    r
  }

  /** The ENDED transition: the next track, unless this is the last one. */
  function EndedIndex(i: nat, n: nat): (r: nat)
    ensures i < n - 1 ==> r == i + 1
    ensures i >= n - 1 ==> r == i
    ensures i < n ==> r < n
  {
    if i < n - 1 then i + 1 else i
  }

  /** Previous undoes next, and next undoes previous. */
  lemma NextPrevInverse(i: nat, n: nat)
    requires i < n
    ensures PrevIndex(NextIndex(i, n), n) == i
    ensures NextIndex(PrevIndex(i, n), n) == i
  {
  }

  /** `k` presses of the next button. */
  function Advance(i: nat, n: nat, k: nat): (r: nat)
    requires n > 0
    decreases k
  {
    if k == 0 then i else NextIndex(Advance(i, n, k - 1), n)
  }

  /** Presses that do not reach past the last track move forward one track each. */
  lemma {:induction false} AdvanceNoWrap(i: nat, n: nat, k: nat)
    requires i + k < n
    ensures Advance(i, n, k) == i + k
    decreases k
  {
    if k > 0 { AdvanceNoWrap(i, n, k - 1); }
  }

  /** `a + b` presses are `a` presses followed by `b` presses. */
  lemma {:induction false} AdvanceCompose(i: nat, n: nat, a: nat, b: nat)
    requires n > 0
    ensures Advance(i, n, a + b) == Advance(Advance(i, n, a), n, b)
    decreases b
  {
    if b > 0 { AdvanceCompose(i, n, a, b - 1); }
  }

  /** As many presses of next as there are tracks come back to the same track. */
  lemma FullCycle(i: nat, n: nat)
    requires i < n
    ensures Advance(i, n, n) == i
  {
    AdvanceNoWrap(i, n, n - 1 - i);
    assert Advance(i, n, n - i) == 0;
    AdvanceNoWrap(0, n, i);
    AdvanceCompose(i, n, n - i, i);
  }

  /**
   * The ENDED event stops at the last track where the next button wraps:
   * the two agree everywhere else.
   */
  lemma EndedVersusNext(i: nat, n: nat)
    requires i < n
    ensures i < n - 1 ==> EndedIndex(i, n) == NextIndex(i, n)
    ensures i == n - 1 ==> EndedIndex(i, n) == i && NextIndex(i, n) == 0
  {
  }

  class RadioPlayerApp {
    const playlist: seq<Video>
    var currentTrackIndex: nat
    var isPlaying: bool
    var isPlayerReady: bool
    var duration: int

    /** The player is opened on a non-empty playlist, at a track of it. */
    ghost predicate Valid()
      reads this
    {
      |playlist| > 0 && currentTrackIndex < |playlist|
    }

    constructor(playlist: seq<Video>, currentIndex: nat)
      requires currentIndex < |playlist|
      ensures Valid()
      ensures this.playlist == playlist && currentTrackIndex == currentIndex
      ensures !isPlaying && !isPlayerReady && duration == 0
    {
      this.playlist := playlist;
      currentTrackIndex := currentIndex;
      isPlaying, isPlayerReady, duration := false, false, 0;
    }

    /** `onPlayerReady`: the player is ready and reports the video's duration. */
    method OnPlayerReady(videoDuration: int)
      modifies this
      ensures isPlayerReady && duration == videoDuration
      ensures currentTrackIndex == old(currentTrackIndex) && isPlaying == old(isPlaying)
    {
      isPlayerReady := true;
      duration := videoDuration;
    }

    /** `onPlayerStateChange`: playing iff the new state is PLAYING; ENDED moves on unless at the last track. */
    method OnPlayerStateChange(state: int)
      requires Valid()
      modifies this
      ensures Valid()
      ensures isPlaying <==> state == Playing
      ensures currentTrackIndex == if state == Ended then EndedIndex(old(currentTrackIndex), |playlist|) else old(currentTrackIndex)
      ensures isPlayerReady == old(isPlayerReady) && duration == old(duration)
    {
      isPlaying := state == Playing;
      if state == Ended {
        currentTrackIndex := EndedIndex(currentTrackIndex, |playlist|);
      }
    }

    method PlayNextTrack()
      requires Valid()
      modifies this
      ensures Valid()
      ensures currentTrackIndex == NextIndex(old(currentTrackIndex), |playlist|)
      ensures isPlaying == old(isPlaying) && isPlayerReady == old(isPlayerReady) && duration == old(duration)
    {
      currentTrackIndex := NextIndex(currentTrackIndex, |playlist|);
    }

    method PlayPreviousTrack()
      requires Valid()
      modifies this
      ensures Valid()
      ensures currentTrackIndex == PrevIndex(old(currentTrackIndex), |playlist|)
      ensures isPlaying == old(isPlaying) && isPlayerReady == old(isPlayerReady) && duration == old(duration)
    {
      currentTrackIndex := PrevIndex(currentTrackIndex, |playlist|);
    }

    /** A click on the `k`-th row of the playlist. */
    method SelectTrack(k: nat)
      requires Valid() && k < |playlist|
      modifies this
      ensures Valid() && currentTrackIndex == k
      ensures isPlaying == old(isPlaying) && isPlayerReady == old(isPlayerReady) && duration == old(duration)
    {
      currentTrackIndex := k;
    }

    /** The track-change effect: the video to load, once the player is ready. */
    method TrackToLoad() returns (videoId: Option<string>)
      requires Valid()
      ensures videoId.Some? <==> isPlayerReady
      ensures videoId.Some? ==> videoId.value == playlist[currentTrackIndex].videoId
    {
      if isPlayerReady {
        videoId := Some(playlist[currentTrackIndex].videoId);
      } else {
        videoId := None;
      }
    }
  }
}
