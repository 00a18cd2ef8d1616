/** The custom YouTube player: error texts, time formatting, the progress bar and its
    chapter markers, and the control calls, which all wait for the player to be ready. */
module Player {
  import opened Text
  import opened TimeFormat
  import opened CircuitTranscript

  // ---------------------------------------------------------------- errors

  const InvalidIdMessage: string := "Invalid video ID"
  const Html5Message: string := "Video cannot be played in HTML5 player"
  const NotFoundMessage: string := "Video not found or private"
  const RegionMessage: string := "Video not available in this region"
  const UnavailableMessage: string := "Video unavailable"

  /** The text shown for a player error code. */
  function ErrorMessage(code: int): (m: string)
    ensures m == InvalidIdMessage <==> code == 2
    ensures m == Html5Message <==> code == 5
    ensures m == NotFoundMessage <==> code == 100
    ensures m == RegionMessage <==> code == 101 || code == 150
    ensures m == UnavailableMessage <==> code !in {2, 5, 100, 101, 150}
  {
    assert InvalidIdMessage[0] == 'I' && RegionMessage[10] == 'a' && NotFoundMessage[6] == 'n';
    assert Html5Message[6] == 'c' && UnavailableMessage[6] == 'u';
    if code == 2 then InvalidIdMessage
    else if code == 5 then Html5Message
    else if code == 100 then NotFoundMessage
    else if code == 101 || code == 150 then RegionMessage
    else UnavailableMessage
  }

  // ---------------------------------------------------------------- time and progress

  /** The player's `formatTime` of a time in seconds: whole minutes, a colon, and the whole
      seconds within the minute padded to two digits. */
  function PlayerFormatTime(seconds: real): string
    requires seconds >= 0.0
  {
    var mins := (seconds / 60.0).Floor;
    assert mins >= 0;
    var secs := (seconds - 60.0 * mins as real).Floor;
    assert secs >= 0;
    NatToString(mins) + ":" + PadStart2(NatToString(secs))
  }

  /** A fractional time shows as the whole seconds before it. */
  lemma PlayerFormatTimeFloors(seconds: real)
    requires seconds >= 0.0
    ensures PlayerFormatTime(seconds) == FormatTime(seconds.Floor)
  {
    var n := seconds.Floor;
    var m := n / 60;
    assert 60 * m <= n < 60 * m + 60;
    assert (60 * m) as real <= seconds < (60 * m + 60) as real;
    assert m as real <= seconds / 60.0 < (m + 1) as real;
    assert (seconds / 60.0).Floor == m;
    assert (seconds - 60.0 * m as real).Floor == n - 60 * m;
  }

  /** The share of `duration` that `time` is, as a percentage; 0 for a duration of 0, as the
      progress bar and the chapter markers use it. */
  function Percent(time: real, duration: real): (p: real)
    ensures duration <= 0.0 ==> p == 0.0
    ensures duration > 0.0 && 0.0 <= time <= duration ==> 0.0 <= p <= 100.0
  {
    if duration > 0.0 then
      var share := time / duration;
      assert 0.0 <= time ==> 0.0 <= share;
      assert time <= duration ==> share <= 1.0;
      share * 100.0
    else 0.0
  }

  /** Later times sit further along the bar. */
  lemma PercentMonotone(a: real, b: real, duration: real)
    requires a <= b
    ensures Percent(a, duration) <= Percent(b, duration)
  {
  }

  /** `jumpSeconds`: the target of a relative jump, kept between the start and the end. */
  function JumpTarget(currentTime: real, seconds: real, duration: real): (t: real)
    ensures duration >= 0.0 ==> 0.0 <= t <= duration
    ensures 0.0 <= currentTime + seconds <= duration ==> t == currentTime + seconds
  {
    var wanted := if currentTime + seconds < duration then currentTime + seconds else duration;
    if wanted > 0.0 then wanted else 0.0
  }

  // ---------------------------------------------------------------- chapter markers

  datatype ChapterMarker = ChapterMarker(timestamp: nat, title: string, color: string)

  const ChapterMarkers: seq<ChapterMarker> := [
    ChapterMarker(55, "Basic Electrical Quantities", "#ff6b6b"),
    ChapterMarker(115, "Ohm's Law", "#4ecdc4"),
    ChapterMarker(175, "Circuit Symbols", "#45b7d1"),
    ChapterMarker(235, "Series vs Parallel", "#96ceb4"),
    ChapterMarker(355, "Power Calculations", "#ffeaa7"),
    ChapterMarker(565, "Circuit Protection", "#fd79a8"),
    ChapterMarker(775, "Troubleshooting", "#fdcb6e"),
    ChapterMarker(955, "Three-Phase Power", "#e17055"),
    ChapterMarker(1165, "Safety Procedures", "#00b894")
  ]

  /** The transcript row each chapter starts at. */
  const ChapterRows: seq<nat> := [2, 4, 6, 8, 12, 19, 26, 32, 39]

  /** The chapters come in time order, and each starts where a row of the circuit-design
      transcript starts (`TimestampOf` is the column `CircuitSegments` is built from). */
  lemma ChaptersOnSegments()
    ensures forall i, j :: 0 <= i < j < |ChapterMarkers| ==> ChapterMarkers[i].timestamp < ChapterMarkers[j].timestamp
    ensures |ChapterRows| == |ChapterMarkers|
    ensures forall i :: 0 <= i < |ChapterMarkers| ==>
      ChapterRows[i] < 53 && TimestampOf(ChapterRows[i]) == ChapterMarkers[i].timestamp
  {
    TimestampsFollowStart();
    forall i | 0 <= i < |ChapterMarkers|
      ensures ChapterRows[i] < 53 && StartOf(ChapterRows[i]) == ChapterMarkers[i].timestamp
    {
      // one case per chapter
      if i == 0 { } else if i == 1 { } else if i == 2 { } else if i == 3 { } else if i == 4 { }
      else if i == 5 { } else if i == 6 { } else if i == 7 { } else { }
    }
  }

  // ---------------------------------------------------------------- the player

  /** The overlay text shown while a jump is under way. */
  function JumpOverlay(timestamp: nat): string
  {
    "Jumping to " + FormatTime(timestamp)
  }

  /** The YouTube state code for playing. */
  const PlayingState: int := 1

  /** The component state as a value, one field per piece of state. `handlersReady` is the
      `isReady` that the player's event handlers, and through them the time-update interval,
      captured when the player was built. */
  datatype PlayerState = PlayerState(
    hasPlayer: bool, isReady: bool, isPlaying: bool, currentTime: real, duration: real,
    playbackRate: real, isJumping: bool, jumpMessage: string, error: Option<string>,
    timerRunning: bool, position: real, playerPlaying: bool, playerRate: real,
    handlersReady: bool)

  /** The state a freshly mounted component starts in. */
  const InitialPlayerState: PlayerState :=
    PlayerState(false, false, false, 0.0, 0.0, 1.0, false, "", None, false, 0.0, false, 1.0, false)

  /** One tick of the time-update interval. Its guard reads the captured flag, not the
      current one. */
  function Ticked(s: PlayerState, playerTime: real, playerDuration: real): (t: PlayerState)
    ensures s.hasPlayer && s.handlersReady ==>
      t == s.(currentTime := playerTime, duration := playerDuration)
    ensures !(s.hasPlayer && s.handlersReady) ==> t == s
  {
    if s.hasPlayer && s.handlersReady then s.(currentTime := playerTime, duration := playerDuration)
    else s
  }

  /** A run of ticks, each with the time and length the player reports. */
  function TickAll(s: PlayerState, reports: seq<(real, real)>): PlayerState
    decreases |reports|
  {
    if reports == [] then s
    else TickAll(Ticked(s, reports[0].0, reports[0].1), reports[1..])
  }

  /** Handlers built while the player was not yet ready never move the shown time or length,
      however many ticks run and whatever the player reports: the time shown changes only by
      seeking. */
  lemma {:induction false} TicksWithUnreadyHandlers(s: PlayerState, reports: seq<(real, real)>)
    requires !s.handlersReady
    ensures TickAll(s, reports) == s
    decreases |reports|
  {
    if reports != [] {
      TicksWithUnreadyHandlers(Ticked(s, reports[0].0, reports[0].1), reports[1..]);
    }
  }

  /** The component as mounted: created while not ready, then ready with length `d`, then
      playing. The interval now runs, yet every tick leaves the shown time at 0. */
  lemma PlayingAfterMountShowsNoTicks(d: real, reports: seq<(real, real)>)
    ensures var mounted := InitialPlayerState.(hasPlayer := true, handlersReady := InitialPlayerState.isReady);
      var playing := mounted.(isReady := true, duration := d).(isPlaying := true, timerRunning := true);
      playing.timerRunning && TickAll(playing, reports).currentTime == 0.0
  {
    var mounted := InitialPlayerState.(hasPlayer := true, handlersReady := InitialPlayerState.isReady);
    var playing := mounted.(isReady := true, duration := d).(isPlaying := true, timerRunning := true);
    TicksWithUnreadyHandlers(playing, reports);
  }

  /** The component state. `hasPlayer` says whether the player object exists; `position`,
      `playerPlaying` and `playerRate` are what it was last told. */
  class YouTubePlayer {
    var hasPlayer: bool
    var isReady: bool
    var isPlaying: bool
    var currentTime: real
    var duration: real
    var playbackRate: real
    var isJumping: bool
    var jumpMessage: string
    var error: Option<string>
    var timerRunning: bool
    var position: real
    var playerPlaying: bool
    var playerRate: real
    var handlersReady: bool

    /** The state as a value. */
    function State(): PlayerState
      reads this
    {
      PlayerState(hasPlayer, isReady, isPlaying, currentTime, duration, playbackRate, isJumping,
                  jumpMessage, error, timerRunning, position, playerPlaying, playerRate, handlersReady)
    }

    /** The state the player is created in. */
    constructor()
      ensures State() == InitialPlayerState
    {
      hasPlayer := false;
      isReady := false;
      isPlaying := false;
      currentTime := 0.0;
      duration := 0.0;
      playbackRate := 1.0;
      isJumping := false;
      jumpMessage := "";
      error := None;
      timerRunning := false;
      position := 0.0;
      playerPlaying := false;
      playerRate := 1.0;
      handlersReady := false;
    }

    predicate Controllable()
      reads this
    {
      hasPlayer && isReady
    }

    /** The player object was created; its handlers keep the `isReady` of that moment, which
      is false when the component mounts. */
    method Created()
      modifies this
      ensures State() == old(State()).(hasPlayer := true, handlersReady := old(isReady))
    {
      hasPlayer := true;
      handlersReady := isReady;
    }

    /** `onReady`: the player is ready and reports the video's length. */
    method OnReady(videoDuration: real)
      modifies this
      ensures State() == old(State()).(isReady := true, duration := videoDuration)
    {
      isReady := true;
      duration := videoDuration;
    }

    /** `onStateChange`: playing starts the time updates, anything else stops them. */
    method OnStateChange(state: int)
      modifies this
      ensures State() == old(State()).(isPlaying := state == PlayingState,
                                       timerRunning := state == PlayingState)
    {
      isPlaying := state == PlayingState;
      timerRunning := state == PlayingState;
    }

    /** `onError`: only the error message changes. */
    method OnError(code: int)
      modifies this
      ensures State() == old(State()).(error := Some(ErrorMessage(code)))
    {
      error := Some(ErrorMessage(code));
    }

    /** The retry button clears the error and changes nothing else. */
    method Retry()
      modifies this
      ensures State() == old(State()).(error := None)
    {
      error := None;
    }

    /** One tick of the time update: when the handlers were built with a ready player, the
      shown time and length follow the player's; otherwise nothing changes. */
    method TimeTick(playerTime: real, playerDuration: real)
      modifies this
      ensures State() == Ticked(old(State()), playerTime, playerDuration)
    {
      if hasPlayer && handlersReady {
        currentTime := playerTime;
        duration := playerDuration;
      }
    }

    /** `seekTo`: a ready player moves to `seconds`, which is also shown; otherwise nothing
      changes. */
    method SeekTo(seconds: real)
      modifies this
      ensures old(Controllable()) ==> State() == old(State()).(position := seconds, currentTime := seconds)
      ensures !old(Controllable()) ==> State() == old(State())
    {
      if Controllable() {
        position := seconds;
        currentTime := seconds;
      }
    }

    /** `play`: a ready player is told to play; otherwise nothing changes. */
    method Play()
      modifies this
      ensures old(Controllable()) ==> State() == old(State()).(playerPlaying := true)
      ensures !old(Controllable()) ==> State() == old(State())
    {
      if Controllable() {
        playerPlaying := true;
      }
    }

    /** `pause`: a ready player is told to pause; otherwise nothing changes. */
    method Pause()
      modifies this
      ensures old(Controllable()) ==> State() == old(State()).(playerPlaying := false)
      ensures !old(Controllable()) ==> State() == old(State())
    {
      if Controllable() {
        playerPlaying := false;
      }
    }

    /** `jumpSeconds`: a relative jump, never before the start or past the end. */
    method JumpSeconds(seconds: real)
      modifies this
      ensures old(Controllable()) ==>
        State() == old(State()).(position := JumpTarget(old(currentTime), seconds, old(duration)),
                                 currentTime := JumpTarget(old(currentTime), seconds, old(duration)))
      ensures old(Controllable()) && duration >= 0.0 ==> 0.0 <= position <= duration
      ensures !old(Controllable()) ==> State() == old(State())
    {
      var target := JumpTarget(currentTime, seconds, duration);
      SeekTo(target);
    }

    /** `changePlaybackRate`: a ready player takes the rate, which is also shown; otherwise
      nothing changes. */
    method ChangePlaybackRate(rate: real)
      modifies this
      ensures old(Controllable()) ==> State() == old(State()).(playerRate := rate, playbackRate := rate)
      ensures !old(Controllable()) ==> State() == old(State())
    {
      if Controllable() {
        playerRate := rate;
        playbackRate := rate;
      }
    }

    /** The first step of `jumpToTimestampWithAnimation`: a ready player shows the jump
      overlay naming the target time; otherwise nothing changes. */
    method BeginJump(timestamp: nat)
      modifies this
      ensures old(Controllable()) ==>
        State() == old(State()).(isJumping := true, jumpMessage := JumpOverlay(timestamp))
      ensures !old(Controllable()) ==> State() == old(State())
    {
      if Controllable() {
        isJumping := true;
        jumpMessage := JumpOverlay(timestamp);
      }
    }

    /** The delayed steps of the jump: seek, play, and clear the overlay. */
    method FinishJump(timestamp: nat)
      modifies this
      ensures old(Controllable()) ==>
        State() == old(State()).(position := timestamp as real, currentTime := timestamp as real,
                                 playerPlaying := true, isJumping := false, jumpMessage := "")
      ensures !old(Controllable()) ==> State() == old(State()).(isJumping := false, jumpMessage := "")
    {
      SeekTo(timestamp as real);
      Play();
      isJumping := false;
      jumpMessage := "";
    }
  }
}
