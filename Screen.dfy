/**
 * The control logic of the app's single screen: an enabled flag driven by
 * the play/pause button, a once-a-second timer and each appearance,
 * each of which may ask the audio player for the current hour's track.
 * The hour is a parameter; reading the clock is not part of this model.
 */
module Screen {
  import opened Optional
  import opened HourTrack
  import opened Playback

  /** The view's flag together with the state of its audio player. */
  datatype View = View(enabled: bool, player: Playback)

  /** `playAudioForCurrentHour` on the abstract player state. */
  function PlayHour(s: Playback, bundle: set<Url>, hour: nat, opens: bool): (r: Playback)
    ensures r == s || (IsPlaying(r) && r.url == ResourcePath(HourFileName(hour)))
  {
    AfterPlay(s, Lookup(bundle, HourFileName(hour)), opens)
  }

  /** The button: flip the flag, then play the hour's track or stop. */
  function AfterToggle(v: View, bundle: set<Url>, hour: nat, opens: bool): (r: View)
    ensures r.enabled == !v.enabled
    ensures !r.enabled ==> r.player == AfterStop(v.player)
    ensures r.enabled ==> r.player == PlayHour(v.player, bundle, hour, opens)
  {
    var enabled := !v.enabled;
    View(enabled, if enabled then PlayHour(v.player, bundle, hour, opens) else AfterStop(v.player))
  }

  /** One timer tick: only an enabled view asks for the hour's track. */
  function AfterTick(v: View, bundle: set<Url>, hour: nat, opens: bool): (r: View)
    ensures r.enabled == v.enabled
    ensures !v.enabled ==> r == v
    ensures v.enabled ==> r.player == PlayHour(v.player, bundle, hour, opens)
  {
    if v.enabled then View(true, PlayHour(v.player, bundle, hour, opens)) else v
  }

  /** Each appearance: asks for the hour's track whatever the flag says. */
  function AfterAppear(v: View, bundle: set<Url>, hour: nat, opens: bool): (r: View)
    ensures r.enabled == v.enabled
    ensures r.player == PlayHour(v.player, bundle, hour, opens)
  {
    View(v.enabled, PlayHour(v.player, bundle, hour, opens))
  }

  /**
   * Pressing the button twice restores the flag; the first press of an
   * enabled view stops the player, the second asks for the hour's track.
   */
  lemma ToggleTwice(v: View, bundle: set<Url>, hour: nat, opens: bool)
    requires v.enabled
    ensures AfterToggle(v, bundle, hour, opens).player == AfterStop(v.player)
    ensures !IsPlaying(AfterToggle(v, bundle, hour, opens).player)
    ensures AfterToggle(AfterToggle(v, bundle, hour, opens), bundle, hour, opens)
         == View(true, PlayHour(AfterStop(v.player), bundle, hour, opens))
  {
  }

  /**
   * Within one hour, a tick after the hour's track started changes nothing:
   * the track is swapped only by the first tick of a new hour.
   */
  lemma TickWithinHourIsNoOp(v: View, bundle: set<Url>, hour: nat, first: bool, second: bool)
    requires v.enabled && PlaySucceeds(v.player, Lookup(bundle, HourFileName(hour)), first)
    ensures AfterTick(AfterTick(v, bundle, hour, first), bundle, hour, second)
         == AfterTick(v, bundle, hour, first)
  {
    PlayAgainReusesPlayer(v.player, bundle, HourFileName(hour), first, second);
  }

  /** The first tick of a new hour whose track opens swaps to a fresh player over it. */
  lemma TickAtNewHourSwapsTrack(v: View, bundle: set<Url>, hour: nat, next: nat)
    requires v.enabled && hour != next
    requires Lookup(bundle, HourFileName(hour)).Some? && Lookup(bundle, HourFileName(next)).Some?
    ensures AfterTick(AfterTick(v, bundle, hour, true), bundle, next, true)
         == View(true, Loaded(ResourcePath(HourFileName(next)), true, Forever))
  {
    DecimalInjective(hour, next);
    PlaySwapsTrack(v.player, bundle, HourFileName(hour), HourFileName(next));
  }

  /**
   * The flag and the player can disagree: after the button pauses a loaded
   * track, a new output device starts it again, and later ticks leave it
   * playing while the button still shows "paused".
   */
  lemma FlagAndPlayerDiverge(v: View, bundle: set<Url>, hour: nat, opens: bool)
    requires v.enabled && v.player.Loaded?
    ensures var paused := AfterToggle(v, bundle, hour, opens);
            var resumed := paused.(player := AfterRouteChange(paused.player, Some(NewDeviceAvailable)));
            !resumed.enabled && IsPlaying(resumed.player)
            && AfterTick(resumed, bundle, hour, opens) == resumed
  {
  }

  /** Every reachable view keeps its player consistent with the bundle. */
  lemma ViewStepsKeepConsistent(v: View, bundle: set<Url>, hour: nat, opens: bool)
    requires Consistent(v.player, bundle)
    ensures Consistent(AfterToggle(v, bundle, hour, opens).player, bundle)
    ensures Consistent(AfterTick(v, bundle, hour, opens).player, bundle)
    ensures Consistent(AfterAppear(v, bundle, hour, opens).player, bundle)
  {
    var e := PlayRequest(HourFileName(hour), opens);
    ApplyKeepsConsistent(v.player, bundle, e);
    ApplyKeepsConsistent(v.player, bundle, StopRequest);
  }

  /** `ContentView`: the `isPlaying` state flag and the audio player it owns. */
  class ContentView {
    var isPlaying: bool
    const audioPlayer: AudioPlayer

    function Snapshot(): View
      reads this, audioPlayer, audioPlayer.player
    {
      View(isPlaying, audioPlayer.State())
    }

    ghost predicate Valid()
      reads this, audioPlayer, audioPlayer.player
    {
      audioPlayer.Valid()
    }

    /** A new view is enabled and its player holds nothing yet. */
    constructor (bundle: set<Url>)
      ensures Valid() && fresh(audioPlayer) && audioPlayer.bundle == bundle
      ensures Snapshot() == View(true, Idle)
    {
      isPlaying := true;
      audioPlayer := new AudioPlayer(bundle);
    }

    /** `playAudioForCurrentHour`, the hour given. */
    method PlayAudioForCurrentHour(hour: nat, opens: bool)
      requires Valid()
      modifies audioPlayer, audioPlayer.player
      ensures Valid()
      ensures audioPlayer.State() == PlayHour(old(audioPlayer.State()), audioPlayer.bundle, hour, opens)
    {
      var filename := HourFileName(hour);
      audioPlayer.PlayAudio(filename, opens);
    }

    /** The button's action. */
    method Toggle(hour: nat, opens: bool)
      requires Valid()
      modifies this, audioPlayer, audioPlayer.player
      ensures Valid()
      ensures Snapshot() == AfterToggle(old(Snapshot()), audioPlayer.bundle, hour, opens)
    {
      isPlaying := !isPlaying;
      if isPlaying {
        PlayAudioForCurrentHour(hour, opens);
      } else {
        audioPlayer.StopPlayback();
      }
    }

    /** The timer's action, once a second. */
    method Tick(hour: nat, opens: bool)
      requires Valid()
      modifies audioPlayer, audioPlayer.player
      ensures Valid()
      ensures Snapshot() == AfterTick(old(Snapshot()), audioPlayer.bundle, hour, opens)
    {
      if isPlaying {
        PlayAudioForCurrentHour(hour, opens);
      }
    }

    /** The `onAppear` action. */
    method Appear(hour: nat, opens: bool)
      requires Valid()
      modifies audioPlayer, audioPlayer.player
      ensures Valid()
      ensures Snapshot() == AfterAppear(old(Snapshot()), audioPlayer.bundle, hour, opens)
    {
      PlayAudioForCurrentHour(hour, opens);
    }
  }
}
