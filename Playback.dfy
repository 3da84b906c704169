/**
 * The audio player of the app: at most one looping player over a bundled
 * track, driven by play/stop requests and by the platform's interruption
 * and route-change notifications.
 *
 * The pure functions below give the abstract state after each operation;
 * the classes at the end hold the state in place and are proved to follow
 * them.
 */
module Playback {
  import opened Optional

  /** A bundled file, named by its path inside the app bundle. */
  type Url = string

  /** The fixed sub-directory and extension of the track files. */
  const Subdirectory: string := "kktracks"
  const Extension: string := "m4a"

  /** The loop count that makes a player repeat until stopped. */
  const Forever: int := -1

  /** Where the track called `name` lives inside the bundle. */
  function ResourcePath(name: string): Url {
    Subdirectory + "/" + name + "." + Extension
  }

  lemma ResourcePathInjective(a: string, b: string)
    ensures ResourcePath(a) == ResourcePath(b) ==> a == b
  {
    if ResourcePath(a) == ResourcePath(b) {
      var k := |Subdirectory + "/"|;
      assert |a| == |b|;
      assert a == ResourcePath(a)[k..k + |a|];
      assert b == ResourcePath(b)[k..k + |b|];
    }
  }

  /**
   * `Bundle.main.url(forResource:withExtension:subdirectory:)`: the bundle
   * is the set of paths it holds; the lookup finds the track or nothing.
   */
  function Lookup(bundle: set<Url>, name: string): (r: Option<Url>)
    ensures r.Some? <==> ResourcePath(name) in bundle
    ensures r.Some? ==> r.value == ResourcePath(name) && r.value in bundle
  {
    if ResourcePath(name) in bundle then Some(ResourcePath(name)) else None
  }

  /** Two names that both resolve resolve to the same file only if they are equal. */
  lemma LookupInjective(bundle: set<Url>, a: string, b: string)
    requires Lookup(bundle, a).Some?
    ensures Lookup(bundle, a) == Lookup(bundle, b) <==> a == b
  {
    ResourcePathInjective(a, b);
  }

  /** The player's state: no player, or one loaded with a file. */
  datatype Playback = Idle | Loaded(url: Url, playing: bool, loops: int)

  /** `wasPlayingBeforeRouteChange`: a player exists and is playing. */
  predicate IsPlaying(s: Playback) {
    s.Loaded? && s.playing
  }

  /** `player?.play()`: a loaded player plays; with none nothing happens. */
  function Resumed(s: Playback): (r: Playback)
    ensures s.Idle? ==> r == Idle
    ensures s.Loaded? ==> IsPlaying(r) && r.url == s.url && r.loops == s.loops
  {
    match s
    case Idle => Idle
    case Loaded(u, _, n) => Loaded(u, true, n)
  }

  /** `player?.pause()` and `player?.stop()`: a loaded player halts, keeping its file. */
  function Halted(s: Playback): (r: Playback)
    ensures !IsPlaying(r)
    ensures s.Idle? ==> r == Idle
    ensures s.Loaded? ==> r.Loaded? && r.url == s.url && r.loops == s.loops
  {
    match s
    case Idle => Idle
    case Loaded(u, _, n) => Loaded(u, false, n)
  }

  /** The guard of `playAudio`: no player yet, or one over another file. */
  predicate NeedsNewPlayer(s: Playback, url: Url) {
    s.Idle? || s.url != url
  }

  /** Whether `playAudio` starts playback: the file resolved, and a needed player could be built. */
  predicate PlaySucceeds(s: Playback, found: Option<Url>, opens: bool) {
    found.Some? && (opens || !NeedsNewPlayer(s, found.value))
  }

  /**
   * `playAudio` once the file name is resolved to `found`; `opens` says
   * whether building a player over the file succeeds. A failed lookup or a
   * failed build changes nothing; otherwise the file is loaded and playing,
   * on a fresh player looping forever when one had to be built, on the
   * existing player otherwise.
   */
  function AfterPlay(s: Playback, found: Option<Url>, opens: bool): (r: Playback)
    ensures !PlaySucceeds(s, found, opens) ==> r == s
    ensures PlaySucceeds(s, found, opens) ==> IsPlaying(r) && r.url == found.value
    ensures PlaySucceeds(s, found, opens) && NeedsNewPlayer(s, found.value) ==> r.loops == Forever
    ensures PlaySucceeds(s, found, opens) && !NeedsNewPlayer(s, found.value) ==> r.loops == s.loops
  {
    match found
    case None => s
    case Some(url) =>
      if NeedsNewPlayer(s, url) then
        if opens then Resumed(Loaded(url, false, Forever)) else s
      else Resumed(s)
  }

  /** `stopPlayback`. */
  function AfterStop(s: Playback): (r: Playback)
    ensures !IsPlaying(r)
    ensures r.Idle? <==> s.Idle?
    ensures s.Loaded? ==> r.url == s.url && r.loops == s.loops
  {
    Halted(s)
  }

  /** AVAudioSession.InterruptionOptions, given by its raw value. */
  datatype InterruptionOptions = InterruptionOptions(rawValue: nat) {
    /** `contains(.shouldResume)`: the flag is bit 0 (raw value 1). */
    predicate HasShouldResume() {
      rawValue % 2 == 1
    }
  }

  /**
   * A decoded interruption notification. An interruption that ends carries
   * its options when the notification has them.
   */
  datatype Interruption = Began | Ended(options: Option<InterruptionOptions>)

  /**
   * `handleAudioSessionInterruption`; `note` is None when the notification
   * cannot be decoded. A beginning pauses; an ending resumes a loaded player
   * only when the options are present and ask for it.
   */
  function AfterInterruption(s: Playback, note: Option<Interruption>): (r: Playback)
    ensures r.Idle? <==> s.Idle?
    ensures r.Loaded? ==> r.url == s.url && r.loops == s.loops
    ensures note == Some(Began) ==> !IsPlaying(r)
    ensures IsPlaying(r) != IsPlaying(s) ==> note.Some? && (note.value.Began? || note.value.options.Some?)
    ensures note.Some? && note.value.Ended? && note.value.options.Some?
            ==> r == if note.value.options.value.HasShouldResume() then Resumed(s) else s
    ensures note.None? || (note.value.Ended? && note.value.options.None?) ==> r == s
  {
    match note
    case None => s
    case Some(Began) => Halted(s)
    case Some(Ended(options)) =>
      if options.Some? && options.value.HasShouldResume() then Resumed(s) else s
  }

  /** The reasons AVAudioSession gives for a route change. */
  datatype RouteChangeReason =
    | Unknown
    | NewDeviceAvailable
    | OldDeviceUnavailable
    | CategoryChange
    | Override
    | WakeFromSleep
    | NoSuitableRouteForCategory
    | RouteConfigurationChange

  /**
   * `handleAudioSessionRouteChange`; `reason` is None when the notification
   * cannot be decoded. A new device resumes a loaded player; losing the old
   * device pauses it if it was playing; every other reason is ignored.
   */
  function AfterRouteChange(s: Playback, reason: Option<RouteChangeReason>): (r: Playback)
    ensures r.Idle? <==> s.Idle?
    ensures r.Loaded? ==> r.url == s.url && r.loops == s.loops
    ensures reason == Some(NewDeviceAvailable) ==> IsPlaying(r) == s.Loaded?
    ensures reason == Some(OldDeviceUnavailable) ==> !IsPlaying(r)
    ensures reason.None? || reason.value !in {NewDeviceAvailable, OldDeviceUnavailable} ==> r == s
  {
    match reason
    case Some(NewDeviceAvailable) => Resumed(s)
    case Some(OldDeviceUnavailable) => if IsPlaying(s) then Halted(s) else s
    case _ => s
  }

  // Properties of the operations

  /**
   * Playing the same file twice in a row gives the state of playing it once
   * (the file opens on both attempts or on neither).
   */
  lemma PlayIdempotent(s: Playback, found: Option<Url>, opens: bool)
    ensures AfterPlay(AfterPlay(s, found, opens), found, opens) == AfterPlay(s, found, opens)
  {
    var mid := AfterPlay(s, found, opens);
    if PlaySucceeds(s, found, opens) {
      assert !NeedsNewPlayer(mid, found.value);
    } else {
      assert mid == s;
    }
  }

  /**
   * After a successful play, playing the same name again reuses the player
   * (no new one is needed) and does not depend on whether one could be built.
   */
  lemma PlayAgainReusesPlayer(s: Playback, bundle: set<Url>, name: string, first: bool, second: bool)
    requires PlaySucceeds(s, Lookup(bundle, name), first)
    ensures !NeedsNewPlayer(AfterPlay(s, Lookup(bundle, name), first), ResourcePath(name))
    ensures AfterPlay(AfterPlay(s, Lookup(bundle, name), first), Lookup(bundle, name), second)
         == AfterPlay(s, Lookup(bundle, name), first)
  {
  }

  /**
   * Playing one track and then another that resolves and can be opened
   * leaves exactly the second one loaded, on a fresh looping player.
   */
  lemma PlaySwapsTrack(s: Playback, bundle: set<Url>, a: string, b: string)
    requires a != b && Lookup(bundle, a).Some? && Lookup(bundle, b).Some?
    ensures AfterPlay(AfterPlay(s, Lookup(bundle, a), true), Lookup(bundle, b), true)
         == Loaded(ResourcePath(b), true, Forever)
  {
    var mid := AfterPlay(s, Lookup(bundle, a), true);
    ResourcePathInjective(a, b);
    assert NeedsNewPlayer(mid, ResourcePath(b));
  }

  /** Stopping and then playing the loaded file again resumes the same player. */
  lemma StopThenPlayResumes(s: Playback, opens: bool)
    requires s.Loaded?
    ensures AfterPlay(AfterStop(s), Some(s.url), opens) == Loaded(s.url, true, s.loops)
  {
  }

  /**
   * Interruption round trip: a playing player is paused when an interruption
   * begins; when it ends it plays again exactly if the options ask for it.
   */
  lemma InterruptionRoundTrip(s: Playback, options: InterruptionOptions)
    requires IsPlaying(s)
    ensures !IsPlaying(AfterInterruption(s, Some(Began)))
    ensures AfterInterruption(AfterInterruption(s, Some(Began)), Some(Ended(Some(options))))
         == if options.HasShouldResume() then s else Halted(s)
    ensures AfterInterruption(AfterInterruption(s, Some(Began)), Some(Ended(None))) == Halted(s)
  {
  }

  /** Losing the output device never leaves the player playing, and never resumes one. */
  lemma OldDeviceUnavailableNeverResumes(s: Playback)
    ensures !IsPlaying(AfterRouteChange(s, Some(OldDeviceUnavailable)))
    ensures !IsPlaying(s) ==> AfterRouteChange(s, Some(OldDeviceUnavailable)) == s
  {
  }

  /**
   * The player does not remember a stop: a new output device, or the end of
   * an interruption that allows resuming, starts a stopped track again.
   */
  lemma StoppedTrackResumesOnPlatformEvents(s: Playback, options: InterruptionOptions)
    requires s.Loaded? && options.HasShouldResume()
    ensures IsPlaying(AfterRouteChange(AfterStop(s), Some(NewDeviceAvailable)))
    ensures IsPlaying(AfterInterruption(AfterStop(s), Some(Ended(Some(options)))))
  {
  }

  // Invariants kept by every operation

  /** Every player the app holds loops forever and plays a file of the bundle. */
  predicate Consistent(s: Playback, bundle: set<Url>) {
    s.Loaded? ==> s.loops == Forever && s.url in bundle
  }

  /** One input the player reacts to. */
  datatype Event =
    | PlayRequest(name: string, opens: bool)
    | StopRequest
    | InterruptionNote(note: Option<Interruption>)
    | RouteChangeNote(reason: Option<RouteChangeReason>)

  function Apply(s: Playback, bundle: set<Url>, e: Event): Playback {
    match e
    case PlayRequest(name, opens) => AfterPlay(s, Lookup(bundle, name), opens)
    case StopRequest => AfterStop(s)
    case InterruptionNote(note) => AfterInterruption(s, note)
    case RouteChangeNote(reason) => AfterRouteChange(s, reason)
  }

  lemma ApplyKeepsConsistent(s: Playback, bundle: set<Url>, e: Event)
    requires Consistent(s, bundle)
    ensures Consistent(Apply(s, bundle, e), bundle)
  {
  }

  /** The state after a sequence of events, the first applied first. */
  function Run(s: Playback, bundle: set<Url>, events: seq<Event>): Playback
    decreases |events|
  {
    if events == [] then s else Run(Apply(s, bundle, events[0]), bundle, events[1..])
  }

  /** Whatever the platform and the view send, a consistent state stays consistent. */
  lemma {:induction false} RunKeepsConsistent(s: Playback, bundle: set<Url>, events: seq<Event>)
    requires Consistent(s, bundle)
    ensures Consistent(Run(s, bundle, events), bundle)
    decreases |events|
  {
    if events != [] {
      ApplyKeepsConsistent(s, bundle, events[0]);
      RunKeepsConsistent(Apply(s, bundle, events[0]), bundle, events[1..]);
    }
  }

  /** Once a track is loaded, some track stays loaded: a player is replaced, never released. */
  lemma {:induction false} RunKeepsPlayer(s: Playback, bundle: set<Url>, events: seq<Event>)
    requires s.Loaded?
    ensures Run(s, bundle, events).Loaded?
    decreases |events|
  {
    if events != [] {
      RunKeepsPlayer(Apply(s, bundle, events[0]), bundle, events[1..]);
    }
  }

  // The objects

  /** An AVAudioPlayer over one file: its file never changes. */
  class Player {
    const url: Url
    var isPlaying: bool
    var numberOfLoops: int

    /** `AVAudioPlayer(contentsOf:)` when it does not throw: stopped, playing once. */
    constructor (url: Url)
      ensures this.url == url && !isPlaying && numberOfLoops == 0
    {
      this.url := url;
      isPlaying := false;
      numberOfLoops := 0;
    }

    method Play()
      modifies this
      ensures isPlaying && numberOfLoops == old(numberOfLoops)
    {
      isPlaying := true;
    }

    method Pause()
      modifies this
      ensures !isPlaying && numberOfLoops == old(numberOfLoops)
    {
      isPlaying := false;
    }

    /** Also releases the player's prepared resources, which this model does not track. */
    method Stop()
      modifies this
      ensures !isPlaying && numberOfLoops == old(numberOfLoops)
    {
      isPlaying := false;
    }
  }

  /** The app's `AudioPlayer`: holds at most one player. */
  class AudioPlayer {
    /** The bundle the tracks are looked up in. */
    const bundle: set<Url>
    var player: Player?

    /** The abstract state of the object. */
    function State(): Playback
      reads this, player
    {
      if player == null then Idle
      else Loaded(player.url, player.isPlaying, player.numberOfLoops)
    }

    ghost predicate Valid()
      reads this, player
    {
      Consistent(State(), bundle)
    }

    /** Starts with no player; session setup and notification registration are not modelled. */
    constructor (bundle: set<Url>)
      ensures this.bundle == bundle && State() == Idle && Valid()
    {
      this.bundle := bundle;
      player := null;
    }

    /** `wasPlayingBeforeRouteChange`. */
    function WasPlayingBeforeRouteChange(): (b: bool)
      reads this, player
      ensures b == IsPlaying(State())
    {
      player != null && player.isPlaying
    }

    /**
     * `playAudio(fileName:)`; `opens` says whether building a player over
     * the resolved file succeeds. A player is built only when none is loaded
     * or the loaded one plays another file; otherwise the same one is kept.
     */
    method PlayAudio(fileName: string, opens: bool)
      requires Valid()
      modifies this, player
      ensures Valid()
      ensures State() == AfterPlay(old(State()), Lookup(bundle, fileName), opens)
      ensures PlaySucceeds(old(State()), Lookup(bundle, fileName), opens)
           && NeedsNewPlayer(old(State()), ResourcePath(fileName))
           ==> fresh(player)
      ensures !(PlaySucceeds(old(State()), Lookup(bundle, fileName), opens)
             && NeedsNewPlayer(old(State()), ResourcePath(fileName)))
           ==> player == old(player)
    {
      var found := Lookup(bundle, fileName);
      if found.None? {
        return;
      }
      var url := found.value;
      if player == null || player.url != url {
        if !opens {
          return;
        }
        var p := new Player(url);
        p.numberOfLoops := Forever;
        player := p;
      }
      player.Play();
      ApplyKeepsConsistent(old(State()), bundle, PlayRequest(fileName, opens));
    }

    /** `stopPlayback`. */
    method StopPlayback()
      requires Valid()
      modifies player
      ensures Valid() && player == old(player)
      ensures State() == AfterStop(old(State()))
    {
      if player != null {
        player.Stop();
      }
    }

    /** `handleAudioSessionInterruption`, given the decoded notification. */
    method HandleInterruption(note: Option<Interruption>)
      requires Valid()
      modifies player
      ensures Valid() && player == old(player)
      ensures State() == AfterInterruption(old(State()), note)
    {
      if note.None? {
        return;
      }
      match note.value
      case Began =>
        if player != null {
          player.Pause();
        }
      case Ended(options) =>
        if options.Some? && options.value.HasShouldResume() && player != null {
          player.Play();
        }
    }

    /** `handleAudioSessionRouteChange`, given the decoded reason. */
    method HandleRouteChange(reason: Option<RouteChangeReason>)
      requires Valid()
      modifies player
      ensures Valid() && player == old(player)
      ensures State() == AfterRouteChange(old(State()), reason)
    {
      if reason.None? {
        return;
      }
      match reason.value
      case NewDeviceAvailable =>
        if player != null {
          player.Play();
        }
      case OldDeviceUnavailable =>
        if WasPlayingBeforeRouteChange() {
          player.Pause();
        }
      case _ =>
    }
  }
}
