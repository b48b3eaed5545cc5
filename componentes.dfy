/**
 * The gesture-driven video controller of the `Video` composable, and the count rule of
 * `ActionIcon`.
 *
 * `Video` keeps six pieces of remembered state beside the media player: the overlay icon, one
 * holding flag per half of the screen, and the displayed playing flag, position and duration.
 * A polling loop copies the player's state into the displayed state, one loop per half seeks
 * while that half is held, a timer hides the overlay icon, taps toggle playback and the slider
 * seeks. Each loop body and each callback is one atomic event here; when the events happen
 * (every 200 ms, every 300 ms, 600 ms after the icon changed, on input) is up to the
 * environment that calls them.
 */
module Componentes {
  import opened Wrappers

  /** Period of the polling loop. */
  const POLL_INTERVAL_MS: nat := 200
  /** Period of each hold-to-seek loop. */
  const HOLD_REPEAT_MS: nat := 300
  /** How long the overlay icon stays before the hide timer clears it. */
  const ICON_HIDE_DELAY_MS: nat := 600
  /** How far one hold step seeks. */
  const SEEK_STEP_MS: int := 1000

  /** The overlay icons: ⏪, ⏩, ▶️ and ⏸. */
  datatype Glyph = Rewind | FastForward | Play | Pause {
    function Text(): string {
      match this
      case Rewind => "\U{23EA}"
      case FastForward => "\U{23E9}"
      case Play => "\U{25B6}\U{FE0F}"
      case Pause => "\U{23F8}"
    }
  }

  /** The two touch zones: the left half rewinds, the right half fast-forwards. */
  datatype Zone = Left | Right

  /** What the controller reads from and changes in the media player. */
  datatype PlayerState = PlayerState(position: int, duration: int, playing: bool)

  /**
   * The player together with the controller's remembered state. `hideTimerRestarts` counts how
   * often the hide effect, which is keyed on the icon's value, has been restarted: once for
   * every change of `showIcon` to a different value, and never for a write of the same value.
   */
  datatype VideoState = VideoState(
    player: PlayerState,
    showIcon: Option<Glyph>,
    hideTimerRestarts: nat,
    isHoldingLeft: bool,
    isHoldingRight: bool,
    isPlaying: bool,
    currentPosition: int,
    duration: int)

  /** The state right after the view is composed over a player in state `p`. */
  function Mount(p: PlayerState): VideoState {
    VideoState(p, None, 0, false, false, p.playing, 0, 0)
  }

  /** Kotlin's `coerceAtLeast`. */
  function CoerceAtLeast(x: int, minimum: int): int {
    if x < minimum then minimum else x
  }

  /** Kotlin's `coerceAtMost`. */
  function CoerceAtMost(x: int, maximum: int): int {
    if x > maximum then maximum else x
  }

  /** `(position - 1000).coerceAtLeast(0)`: where one rewind step seeks to. */
  function RewindTarget(position: int): int {
    CoerceAtLeast(position - SEEK_STEP_MS, 0)
  }

  /** `(position + 1000).coerceAtMost(duration)`, with the player's own duration. */
  function FastForwardTarget(position: int, duration: int): int {
    CoerceAtMost(position + SEEK_STEP_MS, duration)
  }

  /** `duration.takeIf { it > 0 } ?: 1L`: the duration the polling loop publishes. */
  function PolledDuration(d: int): (r: int)
    ensures r >= 1
    ensures d > 0 ==> r == d
    ensures d <= 0 ==> r == 1
  {
    if d > 0 then d else 1
  }

  /** Writes `icon` to `showIcon`; the hide effect restarts only if the value changes. */
  function SetIcon(s: VideoState, icon: Option<Glyph>): VideoState {
    s.(showIcon := icon,
       hideTimerRestarts := if icon == s.showIcon then s.hideTimerRestarts else s.hideTimerRestarts + 1)
  }

  /** One pass of the polling loop. */
  function Poll(s: VideoState): VideoState {
    s.(currentPosition := s.player.position,
       duration := PolledDuration(s.player.duration),
       isPlaying := s.player.playing)
  }

  function Holding(s: VideoState, z: Zone): bool {
    match z
    case Left => s.isHoldingLeft
    case Right => s.isHoldingRight
  }

  function Other(z: Zone): Zone {
    match z
    case Left => Right
    case Right => Left
  }

  function ZoneGlyph(z: Zone): Glyph {
    match z
    case Left => Rewind
    case Right => FastForward
  }

  /** Where a step of zone `z`'s loop seeks to, computed from the player's own position and duration. */
  function StepTarget(p: PlayerState, z: Zone): int {
    match z
    case Left => RewindTarget(p.position)
    case Right => FastForwardTarget(p.position, p.duration)
  }

  /**
   * One pass of zone `z`'s hold loop: while the zone's flag is set, seek one step and show
   * the zone's icon; once the flag is clear, nothing happens.
   */
  function HoldStep(s: VideoState, z: Zone): VideoState {
    if !Holding(s, z) then s
    else SetIcon(s.(player := s.player.(position := StepTarget(s.player, z))), Some(ZoneGlyph(z)))
  }

  /** Sets zone `z`'s holding flag to `b`. */
  function SetHolding(s: VideoState, z: Zone, b: bool): VideoState {
    match z
    case Left => s.(isHoldingLeft := b)
    case Right => s.(isHoldingRight := b)
  }

  /** `onPress` (before the release) and `onLongPress` both set the zone's flag. */
  function Pressed(s: VideoState, z: Zone): VideoState {
    SetHolding(s, z, true)
  }

  /** The end of `onPress`, once the pointer is released. */
  function Released(s: VideoState, z: Zone): VideoState {
    SetHolding(s, z, false)
  }

  /** `onTap`, the same in both zones: toggle the displayed flag, drive the player, show ▶️ or ⏸. */
  function Tapped(s: VideoState): VideoState {
    var playing := !s.isPlaying;
    SetIcon(s.(isPlaying := playing, player := s.player.(playing := playing)),
            Some(if playing then Play else Pause))
  }

  /** The hide timer firing: clear a showing icon. */
  function HideIcon(s: VideoState): VideoState {
    if s.showIcon.Some? then SetIcon(s, None) else s
  }

  /** The slider's `onValueChange`: seek the player and show the new position at once. */
  function Scrub(s: VideoState, value: int): VideoState
    requires 0 <= value <= s.duration
  {
    s.(player := s.player.(position := value), currentPosition := value)
  }

  /**
   * The value the slider reports for a drag to `x`: the slider's range is 0 to the displayed
   * duration, and a drag past either end reports that end.
   */
  function SliderValue(x: int, duration: int): (v: int)
    requires duration >= 0
    ensures 0 <= v <= duration
    ensures 0 <= x <= duration ==> v == x
  {
    if x < 0 then 0 else if x > duration then duration else x
  }

  // ---------------------------------------------------------------------------------------
  // Properties of single events

  /** A rewind step seeks to one second earlier, but never before 0. */
  lemma RewindStep(s: VideoState)
    requires s.isHoldingLeft
    ensures var r := HoldStep(s, Left);
      && r.player.position == (if s.player.position >= SEEK_STEP_MS then s.player.position - SEEK_STEP_MS else 0)
      && r.player.position >= 0
      && r.showIcon == Some(Rewind)
      && r == SetIcon(s.(player := s.player.(position := r.player.position)), Some(Rewind))
  {
  }

  /**
   * A fast-forward step seeks to one second later, but never past the player's own duration,
   * not the polled stand-in: with an unknown duration (zero or negative) it seeks to at most
   * that value, even though the display shows a duration of 1.
   */
  lemma FastForwardStep(s: VideoState)
    requires s.isHoldingRight
    ensures var r := HoldStep(s, Right);
      && r.player.position <= s.player.duration
      && r.player.position <= s.player.position + SEEK_STEP_MS
      && (s.player.position + SEEK_STEP_MS <= s.player.duration ==> r.player.position == s.player.position + SEEK_STEP_MS)
      && (s.player.position + SEEK_STEP_MS > s.player.duration ==> r.player.position == s.player.duration)
      && (s.player.duration <= 0 ==> r.player.position <= 0)
      && r.showIcon == Some(FastForward)
      && r == SetIcon(s.(player := s.player.(position := r.player.position)), Some(FastForward))
  {
  }

  /** A hold step does something only while its own zone is held. */
  lemma HoldStepNeedsHolding(s: VideoState, z: Zone)
    ensures !Holding(s, z) ==> HoldStep(s, z) == s
    ensures Holding(s, z) ==> HoldStep(s, z).showIcon == Some(ZoneGlyph(z)) && HoldStep(s, z).player.position == StepTarget(s.player, z)
    ensures HoldStep(s, z).player.(position := s.player.position) == s.player
    ensures Holding(HoldStep(s, z), Left) == s.isHoldingLeft && Holding(HoldStep(s, z), Right) == s.isHoldingRight
  {
  }

  /**
   * Releasing a zone stops its loop for good: its flag is clear, so its next step does nothing;
   * the other zone, the player and the display are untouched; releasing twice is releasing once.
   */
  lemma ReleaseStopsZone(s: VideoState, z: Zone)
    ensures var r := Released(s, z);
      && !Holding(r, z)
      && Holding(r, Other(z)) == Holding(s, Other(z))
      && HoldStep(r, z) == r
      && r.player == s.player && r.showIcon == s.showIcon
      && r.currentPosition == s.currentPosition && r.isPlaying == s.isPlaying
      && r.duration == s.duration && r.hideTimerRestarts == s.hideTimerRestarts
      && Released(r, z) == r
      && (!Holding(s, z) ==> r == s)
  {
  }

  /**
   * A press sets only its zone's flag and so starts the zone's loop at once: the very next step
   * of that zone seeks. Releasing a zone that was not held undoes the press exactly.
   */
  lemma PressStartsLoop(s: VideoState, z: Zone)
    ensures Holding(Pressed(s, z), z)
    ensures Holding(Pressed(s, z), Other(z)) == Holding(s, Other(z))
    ensures var r := Pressed(s, z);
      && r.player == s.player && r.showIcon == s.showIcon && r.hideTimerRestarts == s.hideTimerRestarts
      && r.isPlaying == s.isPlaying && r.currentPosition == s.currentPosition && r.duration == s.duration
    ensures !Holding(s, z) ==> Released(Pressed(s, z), z) == s
    ensures HoldStep(Pressed(s, z), z).player.position == StepTarget(s.player, z)
  {
  }

  /**
   * A poll makes the display agree with the player; the published duration is the player's
   * when positive and 1 otherwise, so it is at least 1.
   */
  lemma PollMirrorsPlayer(s: VideoState)
    ensures var r := Poll(s);
      && r.currentPosition == s.player.position
      && r.isPlaying == s.player.playing
      && r.duration >= 1
      && (s.player.duration > 0 ==> r.duration == s.player.duration)
      && (s.player.duration <= 0 ==> r.duration == 1)
      && r.player == s.player && r.showIcon == s.showIcon
      && r.isHoldingLeft == s.isHoldingLeft && r.isHoldingRight == s.isHoldingRight
  {
  }

  /**
   * A tap flips the displayed playing flag and drives the player the same way, shows ▶️ when
   * playback starts and ⏸ when it stops, and does not itself seek.
   */
  lemma TapToggles(s: VideoState)
    ensures var r := Tapped(s);
      && r.isPlaying == !s.isPlaying
      && r.player.playing == r.isPlaying
      && (r.isPlaying ==> r.showIcon == Some(Play))
      && (!r.isPlaying ==> r.showIcon == Some(Pause))
      && r.player.position == s.player.position && r.currentPosition == s.currentPosition
      && r.isHoldingLeft == s.isHoldingLeft && r.isHoldingRight == s.isHoldingRight
      && r.duration == s.duration && r.player.duration == s.player.duration
  {
  }

  /**
   * Two taps with no poll in between restore the displayed playing flag and leave the player
   * playing exactly when that flag says so. When the display agrees with the player (as it does
   * right after a poll), the player is restored too.
   */
  lemma TapTwiceRestores(s: VideoState)
    ensures Tapped(Tapped(s)).isPlaying == s.isPlaying
    ensures Tapped(Tapped(s)).player.playing == s.isPlaying
    ensures Tapped(Tapped(s)).showIcon == Some(if s.isPlaying then Play else Pause)
    ensures s.isPlaying == s.player.playing ==> Tapped(Tapped(s)).player == s.player
  {
  }

  /**
   * A tap acts on the displayed flag, not on the player's own. When the display is stale (the
   * player started by itself since the last poll), the first tap drives the player to the state
   * it is already in, and two taps stop a video that was playing.
   */
  lemma StaleTapKeepsPlayer(s: VideoState)
    requires s.isPlaying != s.player.playing
    ensures Tapped(s).player == s.player
    ensures Tapped(Tapped(s)).player.playing == !s.player.playing
  {
  }

  /** Right after mounting, a player that starts by itself is stopped by a double tap. */
  lemma AutoStartThenDoubleTap(d: int)
    ensures var s := Mount(PlayerState(0, d, false)).(player := PlayerState(0, d, true));
      !Tapped(Tapped(s)).player.playing
  {
    var s := Mount(PlayerState(0, d, false)).(player := PlayerState(0, d, true));
    StaleTapKeepsPlayer(s);
  }

  /** The hide timer clears a showing icon and leaves an empty overlay as it is. */
  lemma HideIconClears(s: VideoState)
    ensures HideIcon(s).showIcon == None
    ensures s.showIcon == None ==> HideIcon(s) == s
    ensures s.showIcon != None ==> HideIcon(s) == s.(showIcon := None, hideTimerRestarts := s.hideTimerRestarts + 1)
  {
  }

  /**
   * The hide timer is keyed on the icon's value: a hold step that re-shows the icon already
   * showing does not restart it, so during a long hold the icon is cleared 600 ms after it
   * first appeared, and the next step shows it again with a fresh timer.
   */
  lemma HoldDoesNotRestartHideTimer(s: VideoState, z: Zone)
    requires Holding(s, z) && s.showIcon == Some(ZoneGlyph(z))
    ensures HoldStep(s, z).hideTimerRestarts == s.hideTimerRestarts
    ensures var t := HoldStep(HideIcon(HoldStep(s, z)), z);
      t.showIcon == Some(ZoneGlyph(z)) && t.hideTimerRestarts == s.hideTimerRestarts + 2
  {
  }

  /** Scrubbing seeks and shows the new position before the next poll, which then agrees with it. */
  lemma ScrubShowsAtOnce(s: VideoState, value: int)
    requires 0 <= value <= s.duration
    ensures Scrub(s, value).player.position == value
    ensures Scrub(s, value).currentPosition == value
    ensures Poll(Scrub(s, value)).currentPosition == value
    ensures Scrub(s, value).player.(position := s.player.position) == s.player
    ensures var r := Scrub(s, value);
      && r.showIcon == s.showIcon && r.hideTimerRestarts == s.hideTimerRestarts
      && r.isHoldingLeft == s.isHoldingLeft && r.isHoldingRight == s.isHoldingRight
      && r.isPlaying == s.isPlaying && r.duration == s.duration
  {
  }

  // ---------------------------------------------------------------------------------------
  // Traces of events

  /** What the environment can do: run a loop body, fire the hide timer, or deliver input. */
  datatype Event =
    | PollTick
    | HoldTick(zone: Zone)
    | HideTick
    | PressStart(zone: Zone)
    | LongPress(zone: Zone)
    | PressEnd(zone: Zone)
    | Tap(zone: Zone)
    | SliderChange(x: int)

  function Apply(s: VideoState, e: Event): (r: VideoState)
    requires s.duration >= 0
    ensures r.duration >= 0
  {
    match e
    case PollTick => Poll(s)
    case HoldTick(z) => HoldStep(s, z)
    case HideTick => HideIcon(s)
    case PressStart(z) => Pressed(s, z)
    case LongPress(z) => Pressed(s, z)
    case PressEnd(z) => Released(s, z)
    case Tap(_) => Tapped(s)
    case SliderChange(x) => Scrub(s, SliderValue(x, s.duration))
  }

  function Run(s: VideoState, es: seq<Event>): (r: VideoState)
    requires s.duration >= 0
    ensures r.duration >= 0
    decreases |es|
  {
    if es == [] then s else Run(Apply(s, es[0]), es[1..])
  }

  /** Left and right taps are the same event. */
  lemma TapZonesAgree(s: VideoState)
    requires s.duration >= 0
    ensures Apply(s, Tap(Left)) == Apply(s, Tap(Right))
  {
  }

  /** Whether `e` sets zone `z`'s holding flag. */
  predicate Arms(e: Event, z: Zone) {
    e == PressStart(z) || e == LongPress(z)
  }

  /** `es` without zone `z`'s hold ticks. */
  function WithoutHoldTicks(es: seq<Event>, z: Zone): seq<Event> {
    if es == [] then []
    else if es[0] == HoldTick(z) then WithoutHoldTicks(es[1..], z)
    else [es[0]] + WithoutHoldTicks(es[1..], z)
  }

  /** Only a press or a long press of `z` can set `z`'s holding flag. */
  lemma OnlyPressArms(s: VideoState, e: Event, z: Zone)
    requires s.duration >= 0 && !Holding(s, z) && !Arms(e, z)
    ensures !Holding(Apply(s, e), z)
  {
  }

  /**
   * After zone `z` is released, and until it is pressed again, its loop has no effect at all:
   * any trace runs as if its ticks were not there.
   */
  lemma {:induction false} NoSeekFromReleasedZone(s: VideoState, es: seq<Event>, z: Zone)
    requires s.duration >= 0 && !Holding(s, z)
    requires forall i :: 0 <= i < |es| ==> !Arms(es[i], z)
    ensures Run(s, es) == Run(s, WithoutHoldTicks(es, z))
    decreases |es|
  {
    if es != [] {
      var s' := Apply(s, es[0]);
      OnlyPressArms(s, es[0], z);
      NoSeekFromReleasedZone(s', es[1..], z);
      if es[0] == HoldTick(z) {
        assert s' == s;
      } else {
        var rest := WithoutHoldTicks(es[1..], z);
        assert ([es[0]] + rest)[0] == es[0];
        assert ([es[0]] + rest)[1..] == rest;
      }
    }
  }

  /**
   * The seek bounds over whole traces: with a known or zero duration `d`, a player position in
   * [0, max(d, 1)] stays there. Rewinding stops at 0, fast-forwarding at `d`, and a scrub at
   * the displayed duration, which is 0 before the first poll and max(d, 1) after it.
   */
  ghost predicate InRange(s: VideoState) {
    && s.player.duration >= 0
    && 0 <= s.player.position <= PolledDuration(s.player.duration)
    && 0 <= s.duration <= PolledDuration(s.player.duration)
  }

  lemma MountInRange(p: PlayerState)
    requires p.duration >= 0 && 0 <= p.position <= PolledDuration(p.duration)
    ensures InRange(Mount(p))
  {
  }

  /** Every single event keeps the seek bounds. */
  lemma ApplyStaysInRange(s: VideoState, e: Event)
    requires InRange(s)
    ensures InRange(Apply(s, e))
  {
    var d := PolledDuration(s.player.duration);
    match e
    case HoldTick(z) =>
      var t := StepTarget(s.player, z);
      assert 0 <= t <= d;
    case SliderChange(x) =>
      assert 0 <= SliderValue(x, s.duration) <= d;
    case _ =>
  }

  lemma {:induction false} RunStaysInRange(s: VideoState, es: seq<Event>)
    requires InRange(s)
    ensures InRange(Run(s, es))
    decreases |es|
  {
    if es != [] {
      ApplyStaysInRange(s, es[0]);
      RunStaysInRange(Apply(s, es[0]), es[1..]);
    }
  }

  /** Running a trace is applying its first event, then running the rest. */
  lemma RunCons(s: VideoState, e: Event, rest: seq<Event>)
    requires s.duration >= 0
    ensures Run(s, [e] + rest) == Run(Apply(s, e), rest)
  {
    var es := [e] + rest;
    assert es[0] == e && es[1..] == rest;
  }

  /** A four-event trace, one event at a time. */
  lemma RunFour(s: VideoState, a: Event, b: Event, c: Event, d: Event)
    requires s.duration >= 0
    ensures Run(s, [a, b, c, d]) == Apply(Apply(Apply(Apply(s, a), b), c), d)
  {
    assert [a, b, c, d] == [a] + [b, c, d];
    assert [b, c, d] == [b] + [c, d];
    assert [c, d] == [c] + [d];
    RunCons(s, a, [b, c, d]);
    RunCons(Apply(s, a), b, [c, d]);
    RunCons(Apply(Apply(s, a), b), c, [d]);
    RunCons(Apply(Apply(Apply(s, a), b), c), d, []);
  }

  /** The four steps of a left tap gesture, applied one after the other. */
  lemma TapGestureSteps(s: VideoState)
    requires s.duration >= 0 && !s.isHoldingLeft
    ensures var r := Apply(Apply(Apply(Apply(s, PressStart(Left)), HoldTick(Left)), PressEnd(Left)), Tap(Left));
      && r.player.position == RewindTarget(s.player.position)
      && r.isPlaying == !s.isPlaying
      && !r.isHoldingLeft
      && r.showIcon == Some(if r.isPlaying then Play else Pause)
  {
  }

  /**
   * A plain tap in the left zone is a press, a release and a tap. Its press has already started
   * the rewind loop, whose first pass runs before the release. So a tap also seeks back one
   * second, and toggles playback. Whether the tap comes before or after the release does not
   * matter (`TapReleaseOrderIrrelevant`).
   */
  lemma TapGestureAlsoRewinds(s: VideoState)
    requires s.duration >= 0 && !s.isHoldingLeft
    ensures var r := Run(s, [PressStart(Left), HoldTick(Left), PressEnd(Left), Tap(Left)]);
      && r.player.position == RewindTarget(s.player.position)
      && r.isPlaying == !s.isPlaying
      && !r.isHoldingLeft
      && r.showIcon == Some(if r.isPlaying then Play else Pause)
  {
    RunFour(s, PressStart(Left), HoldTick(Left), PressEnd(Left), Tap(Left));
    TapGestureSteps(s);
  }



  /** A tap and a release touch disjoint parts of the state, so their order does not matter. */
  lemma TapCommutesWithRelease(s: VideoState, z: Zone)
    ensures Released(Tapped(s), z) == Tapped(Released(s, z))
  {
  }

  /** A gesture whose tap is delivered before its release ends in the same state. */
  lemma TapReleaseOrderIrrelevant(s: VideoState, z: Zone)
    requires s.duration >= 0
    ensures Run(s, [PressStart(z), HoldTick(z), Tap(z), PressEnd(z)])
         == Run(s, [PressStart(z), HoldTick(z), PressEnd(z), Tap(z)])
  {
    RunFour(s, PressStart(z), HoldTick(z), Tap(z), PressEnd(z));
    RunFour(s, PressStart(z), HoldTick(z), PressEnd(z), Tap(z));
    var t := Apply(Apply(s, PressStart(z)), HoldTick(z));
    TapThenRelease(t, z);
  }

  /** `TapCommutesWithRelease`, stated on the events. */
  lemma TapThenRelease(t: VideoState, z: Zone)
    requires t.duration >= 0
    ensures Apply(Apply(t, Tap(z)), PressEnd(z)) == Apply(Apply(t, PressEnd(z)), Tap(z))
  {
    TapCommutesWithRelease(t, z);
  }

  /** Press and four fast-forward steps, applied one after the other. */
  lemma FastForwardSteps(s: VideoState)
    requires s.duration >= 0 && s.player == PlayerState(0, 10000, false)
    ensures var h := HoldTick(Right);
      var r := Apply(Apply(Apply(Apply(Apply(s, PressStart(Right)), h), h), h), h);
      r.player.position == 4000 && r.showIcon == Some(FastForward) && r.isHoldingRight
  {
  }

  /**
   * Holding the right zone for four ticks of a 10-second video that starts at 0 moves it
   * four seconds on.
   */
  lemma FastForwardHoldScenario(s: VideoState)
    requires s.duration >= 0 && s.player == PlayerState(0, 10000, false)
    ensures var r := Run(s, [PressStart(Right), HoldTick(Right), HoldTick(Right), HoldTick(Right), HoldTick(Right)]);
      r.player.position == 4000 && r.showIcon == Some(FastForward) && r.isHoldingRight
  {
    var h := HoldTick(Right);
    assert [PressStart(Right), h, h, h, h] == [PressStart(Right)] + [h, h, h, h];
    RunCons(s, PressStart(Right), [h, h, h, h]);
    RunFour(Apply(s, PressStart(Right)), h, h, h, h);
    FastForwardSteps(s);
  }



  // ---------------------------------------------------------------------------------------
  // The objects

  /** The media player, as far as the controller uses it. */
  class Player {
    var position: int
    var duration: int
    var playing: bool

    ghost function State(): PlayerState
      reads this
    {
      PlayerState(position, duration, playing)
    }

    constructor (position: int, duration: int, playing: bool)
      ensures State() == PlayerState(position, duration, playing)
    {
      this.position := position;
      this.duration := duration;
      this.playing := playing;
    }

    method Play()
      modifies this
      ensures State() == old(State()).(playing := true)
    {
      playing := true;
    }

    method Pause()
      modifies this
      ensures State() == old(State()).(playing := false)
    {
      playing := false;
    }

    method SeekTo(positionMs: int)
      modifies this
      ensures State() == old(State()).(position := positionMs)
    {
      position := positionMs;
    }
  }

  /** The remembered state of one `Video` view, over its player. */
  class VideoController {
    const player: Player
    var showIcon: Option<Glyph>
    ghost var hideTimerRestarts: nat
    var isHoldingLeft: bool
    var isHoldingRight: bool
    var isPlaying: bool
    var currentPosition: int
    var duration: int

    ghost function State(): VideoState
      reads this, player
    {
      VideoState(player.State(), showIcon, hideTimerRestarts, isHoldingLeft, isHoldingRight,
                 isPlaying, currentPosition, duration)
    }

    constructor (player: Player)
      ensures this.player == player
      ensures State() == Mount(player.State())
    {
      this.player := player;
      showIcon := None;
      hideTimerRestarts := 0;
      isHoldingLeft, isHoldingRight := false, false;
      isPlaying := player.playing;
      currentPosition, duration := 0, 0;
    }

    /** Assigns the icon; the hide effect restarts only when the value changes. */
    method SetIconValue(icon: Option<Glyph>)
      modifies this
      ensures State() == SetIcon(old(State()), icon)
    {
      if icon != showIcon {
        hideTimerRestarts := hideTimerRestarts + 1;
      }
      showIcon := icon;
    }

    /** One pass of the polling loop. */
    method PollTick()
      modifies this
      ensures State() == Poll(old(State()))
    {
      currentPosition := player.position;
      duration := if player.duration > 0 then player.duration else 1;
      isPlaying := player.playing;
    }

    /** One pass of the rewind loop; `running` is the loop condition it tested. */
    method RewindTick() returns (running: bool)
      modifies this, player
      ensures running == old(isHoldingLeft)
      ensures State() == HoldStep(old(State()), Left)
    {
      running := isHoldingLeft;
      if running {
        player.SeekTo(CoerceAtLeast(player.position - SEEK_STEP_MS, 0));
        SetIconValue(Some(Rewind));
      }
    }

    /** One pass of the fast-forward loop; `running` is the loop condition it tested. */
    method FastForwardTick() returns (running: bool)
      modifies this, player
      ensures running == old(isHoldingRight)
      ensures State() == HoldStep(old(State()), Right)
    {
      running := isHoldingRight;
      if running {
        player.SeekTo(CoerceAtMost(player.position + SEEK_STEP_MS, player.duration));
        SetIconValue(Some(FastForward));
      }
    }

    /** `onPress` up to the release, and `onLongPress`: set the zone's flag. */
    method OnPress(z: Zone)
      modifies this
      ensures State() == Pressed(old(State()), z)
    {
      match z
      case Left => isHoldingLeft := true;
      case Right => isHoldingRight := true;
    }

    /** The rest of `onPress`, after the pointer is released. */
    method OnRelease(z: Zone)
      modifies this
      ensures State() == Released(old(State()), z)
    {
      match z
      case Left => isHoldingLeft := false;
      case Right => isHoldingRight := false;
    }

    /** `onTap`, identical in both zones. */
    method OnTap(z: Zone)
      modifies this, player
      ensures State() == Tapped(old(State()))
    {
      isPlaying := !isPlaying;
      if isPlaying {
        player.Play();
        SetIconValue(Some(Play));
      } else {
        player.Pause();
        SetIconValue(Some(Pause));
      }
    }

    /** The hide timer, 600 ms after the icon last changed value. */
    method HideIconTick()
      modifies this
      ensures State() == HideIcon(old(State()))
    {
      if showIcon != None {
        SetIconValue(None);
      }
    }

    /** The slider's `onValueChange`, with a value inside its range. */
    method OnSliderValueChange(value: int)
      requires 0 <= value <= duration
      modifies this, player
      ensures State() == Scrub(old(State()), value)
    {
      player.SeekTo(value);
      currentPosition := value;
    }
  }

  // ---------------------------------------------------------------------------------------
  // ActionIcon

  /** The count text an `ActionIcon` shows: only a count that is present and non-empty. */
  function CountLabel(count: Option<string>): (shown: Option<string>)
    ensures shown.Some? <==> count.Some? && count.value != ""
    ensures shown.Some? ==> shown == count
  {
    match count
    case Some(text) => if text != "" then Some(text) else None
    case None => None
  }
}
