/** VideoPlayer.tsx: the four-frame demo "video". While playing, a 3 s
    interval advances the frame and stops at the last one; a 50 ms interval
    fills the per-frame progress from the time elapsed since the frame (or
    the playing flag) last changed, which resets it to 0. Play/pause, replay
    and the details overlay drive the rest. The clock is a parameter; speech
    synthesis, mute and subtitles are not part of this model. */
module VideoPlayer {
  const FrameCount := 4
  const LastFrame := FrameCount - 1
  const FrameDuration := 3000.0

  /** The player's state. */
  datatype Player = Player(frame: int, playing: bool, progress: real, details: bool)

  const Initial := Player(0, false, 0.0, false)

  /** The frame is one of the four, the progress a percentage, and a paused
      player shows no per-frame progress. */
  predicate Valid(p: Player) {
    && 0 <= p.frame <= LastFrame
    && 0.0 <= p.progress <= 100.0
    && (!p.playing ==> p.progress == 0.0)
  }

  /** The effect on `[currentFrame, isPlaying]`: moving to `next` from `p`
      resets the progress when either field changed. */
  function Settle(p: Player, next: Player): (r: Player)
    ensures r.frame == next.frame && r.playing == next.playing && r.details == next.details
    ensures r.progress == if p.frame != next.frame || p.playing != next.playing then 0.0 else next.progress
  {
    if p.frame != next.frame || p.playing != next.playing then next.(progress := 0.0) else next
  }

  /** The frame interval's tick, which runs only while playing: the next
      frame, or at the last frame a stop without moving. */
  function FrameTick(p: Player): (r: Player)
    ensures !p.playing ==> r == p
    ensures p.playing && p.frame < LastFrame ==> r.frame == p.frame + 1 && r.playing && r.progress == 0.0
    ensures p.playing && p.frame >= LastFrame ==> r.frame == p.frame && !r.playing && r.progress == 0.0
    ensures r.details == p.details
  {
    if !p.playing then p
    else if p.frame < LastFrame then Settle(p, p.(frame := p.frame + 1))
    else Settle(p, p.(playing := false))
  }

  /** `min(elapsed / 3000 * 100, 100)` for a non-negative elapsed time. */
  function FrameProgress(elapsed: real): (r: real)
    requires elapsed >= 0.0
    ensures 0.0 <= r <= 100.0
    ensures r == 100.0 <==> elapsed >= FrameDuration
    ensures r < 100.0 ==> r * FrameDuration == elapsed * 100.0
  {
    var x := elapsed / FrameDuration * 100.0;
    if x < 100.0 then x else 100.0
  }

  /** The progress interval's tick, which runs only while playing. */
  function ProgressTick(p: Player, elapsed: real): (r: Player)
    requires elapsed >= 0.0
    ensures r.frame == p.frame && r.playing == p.playing && r.details == p.details
    ensures p.playing ==> r.progress == FrameProgress(elapsed)
    ensures !p.playing ==> r == p
  {
    if p.playing then p.(progress := FrameProgress(elapsed)) else p
  }

  /** `handlePlayPause`: paused at the last frame it starts over from frame
      0; it always flips the playing flag and hides the details. */
  function PlayPause(p: Player): (r: Player)
    ensures r.playing == !p.playing && !r.details && r.progress == 0.0
    ensures r.frame == if p.frame == LastFrame && !p.playing then 0 else p.frame
  {
    var frame := if p.frame == LastFrame && !p.playing then 0 else p.frame;
    Settle(p, Player(frame, !p.playing, p.progress, false))
  }

  /** `handleReplay`: frame 0 and playing. */
  function Replay(p: Player): (r: Player)
    ensures r.frame == 0 && r.playing && r.details == p.details
    ensures r.progress == if p.frame == 0 && p.playing then p.progress else 0.0
  {
    Settle(p, p.(frame := 0, playing := true))
  }

  /** The caption button: stop playing and open the details. */
  function OpenDetails(p: Player): (r: Player)
    ensures !r.playing && r.details && r.frame == p.frame
  {
    Settle(p, p.(playing := false, details := true))
  }

  /** The overlay's close button. */
  function CloseDetails(p: Player): (r: Player)
    ensures !r.details && r.frame == p.frame && r.playing == p.playing && r.progress == p.progress
  {
    p.(details := false)
  }

  /** Every transition keeps the player valid. */
  lemma ValidKept(p: Player, elapsed: real)
    requires Valid(p) && elapsed >= 0.0
    ensures Valid(FrameTick(p)) && Valid(ProgressTick(p, elapsed))
    ensures Valid(PlayPause(p)) && Valid(Replay(p))
    ensures Valid(OpenDetails(p)) && Valid(CloseDetails(p))
  {
  }

  /** The progress bar's width: the progress while playing, full when
      paused at the last frame, empty otherwise. */
  function BarWidth(p: Player): (w: real)
    ensures Valid(p) ==> 0.0 <= w <= 100.0
    ensures !p.playing ==> (w == 100.0 <==> p.frame == LastFrame)
    ensures p.playing ==> w == p.progress
  {
    if p.playing then p.progress else if p.frame == LastFrame then 100.0 else 0.0
  }

  /** `n` frame ticks in a row. */
  function FrameTicks(p: Player, n: nat): Player
  {
    if n == 0 then p else FrameTick(FrameTicks(p, n - 1))
  }

  /** Started from frame 0, the player shows frames 1, 2 and 3 on the next
      three ticks and stops at frame 3 on the fourth, full bar. */
  lemma {:induction false} PlaysThrough(p: Player, n: nat)
    requires p.frame == 0 && p.playing
    requires n <= 4
    ensures n <= 3 ==> FrameTicks(p, n).frame == n && FrameTicks(p, n).playing
    ensures n == 4 ==> (FrameTicks(p, n).frame == LastFrame && !FrameTicks(p, n).playing
      && BarWidth(FrameTicks(p, n)) == 100.0)
  {
    if n > 0 {
      PlaysThrough(p, n - 1);
    }
  }

  /** The player component's state. */
  class PlayerView {
    var currentFrame: int
    var isPlaying: bool
    var progress: real
    var showDetails: bool

    function State(): Player
      reads this
    {
      Player(currentFrame, isPlaying, progress, showDetails)
    }

    constructor()
      ensures State() == Initial && Valid(State())
    {
      currentFrame := 0;
      isPlaying := false;
      progress := 0.0;
      showDetails := false;
    }

    /** Runs the progress effect after the frame or the flag changed. */
    method Settled(before: Player)
      modifies this
      ensures State() == Settle(before, old(State()))
    {
      if before.frame != currentFrame || before.playing != isPlaying {
        progress := 0.0;
      }
    }

    /** The frame interval's callback. */
    method OnFrameTimer()
      modifies this
      ensures State() == FrameTick(old(State()))
    {
      var before := State();
      if isPlaying {
        if currentFrame < FrameCount - 1 {
          currentFrame := currentFrame + 1;
        } else {
          isPlaying := false;
        }
        Settled(before);
      }
    }

    /** The progress interval's callback, `elapsed` ms after it started. */
    method OnProgressTimer(elapsed: real)
      requires elapsed >= 0.0
      modifies this
      ensures State() == ProgressTick(old(State()), elapsed)
    {
      if isPlaying {
        var newProgress := elapsed / FrameDuration * 100.0;
        if newProgress > 100.0 {
          newProgress := 100.0;
        }
        progress := newProgress;
      }
    }

    /** `handlePlayPause`. */
    method HandlePlayPause()
      modifies this
      ensures State() == PlayPause(old(State()))
    {
      var before := State();
      if currentFrame == FrameCount - 1 && !isPlaying {
        currentFrame := 0;
      }
      isPlaying := !isPlaying;
      showDetails := false;
      Settled(before);
    }

    /** `handleReplay`. */
    method HandleReplay()
      modifies this
      ensures State() == Replay(old(State()))
    {
      var before := State();
      currentFrame := 0;
      isPlaying := true;
      Settled(before);
    }

    /** The caption button. */
    method ShowDetails()
      modifies this
      ensures State() == OpenDetails(old(State()))
    {
      var before := State();
      isPlaying := false;
      showDetails := true;
      Settled(before);
    }

    /** The overlay's close button. */
    method HideDetails()
      modifies this
      ensures State() == CloseDetails(old(State()))
    {
      showDetails := false;
    }
  }
}
