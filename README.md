# ChaChaFM, modelled in Dafny

ChaChaFM is a one-screen app that loops an ambient track chosen by the hour
of the day over a background image chosen by the season, with a single
play/pause button. This project models the whole of its logic
(`ChaChaFM/ContentView.swift`) with the platform calls made abstract:

- `Seasons.dfy` — `currentSeason` (the day of the year is a parameter) and
  `getBackgroundImageForSeason`, with a reference table of day ranges, the
  inverse image-to-season map, and the facts that the ranges partition the
  year and that the image names are one per season.
- `HourTrack.dfy` — the hour's file name (`"\(hour)"`): the decimal
  rendering of a natural number, a decimal parser, and round trips in both
  directions.
- `Playback.dfy` — the `AudioPlayer` class. Its single optional player is an
  object of class `Player` (standing for `AVAudioPlayer`: file, playing flag,
  loop count). The bundle lookup is a set of bundle paths searched for
  `kktracks/<name>.m4a`; whether `AVAudioPlayer(contentsOf:)` throws is a
  boolean parameter `opens`. Pure functions (`AfterPlay`, `AfterStop`,
  `AfterInterruption`, `AfterRouteChange`) give the abstract state after each
  operation; the class methods are proved to follow them, and the
  properties are lemmas about those functions. Two quirks of the code are
  kept and stated as lemmas: a new output device, and an interruption that
  ends with `shouldResume`, resume a loaded track even after it was stopped.
- `Screen.dfy` — `ContentView`: the `isPlaying` flag, the button (toggle),
  the one-second timer tick and `onAppear`, each taking the current hour as
  a parameter, over the audio player.

The model follows the code as written: `onAppear` asks for the hour's track
whatever the flag says (ChaChaFM/ContentView.swift:39-41), and the
resume-after-stop behaviour above is reproduced rather than corrected.

## Model

| member | source | states |
|---|---|---|
| Seasons.SeasonOfDay | ChaChaFM/ContentView.swift:66-81 | any season other than winter comes from a day in 80..353; defined for every integer |
| Seasons.SeasonRanges | ChaChaFM/ContentView.swift:71-80 | the reference table of each season's day ranges lies within 1..366 |
| Seasons.SeasonOfDayMatchesTable | ChaChaFM/ContentView.swift:71-80 | for every day 1..366 and every season, the day is in that season's ranges (80..171 spring, 172..264 summer, 265..353 autumn, 1..79 and 354..366 winter) iff the classifier returns that season; so each day lies in exactly one season |
| Seasons.OutOfYearIsWinter | ChaChaFM/ContentView.swift:78-79 | a day outside 1..366 falls to the default, winter |
| Seasons.SeasonsAdvanceInOrder | ChaChaFM/ContentView.swift:71-80 | from one day to the next the season stays or moves to the next of winter, spring, summer, autumn, and it changes exactly on days 80, 172, 265 and 354 |
| Seasons.BackgroundImage | ChaChaFM/ContentView.swift:83-96 | the image name of a season maps back to that season: it is the season's own name |
| Seasons.ImageRoundTrip | ChaChaFM/ContentView.swift:86-95 | an image name maps back to a season iff it is that season's image: the name is the season's own name |
| Seasons.BackgroundImageInjective | ChaChaFM/ContentView.swift:86-95 | distinct seasons give distinct image names |
| Seasons.BackgroundImageForDay | ChaChaFM/ContentView.swift:83-96 | the image shown on a day names that day's season |
| HourTrack.Decimal | ChaChaFM/ContentView.swift:52 | the rendering of a number is a non-empty string of digits with no leading zero, starting with 0 only for zero |
| HourTrack.ParseDecimal | ChaChaFM/ContentView.swift:52 | the parser accepts exactly the canonical numerals |
| HourTrack.ParseDecimalOfDecimal | ChaChaFM/ContentView.swift:51-52 | parsing the rendering of n gives n back |
| HourTrack.DecimalOfParseDecimal | ChaChaFM/ContentView.swift:52 | rendering the value of a canonical numeral gives the numeral back |
| HourTrack.DecimalInjective | ChaChaFM/ContentView.swift:52 | distinct hours have distinct file names |
| HourTrack.HourFileName | ChaChaFM/ContentView.swift:51-52 | the hour's file name parses back to the hour |
| HourTrack.HourFileNameLength | ChaChaFM/ContentView.swift:51-52 | for hours 0..23 the file name has one digit below ten and two from ten on |
| Playback.ResourcePathInjective | ChaChaFM/ContentView.swift:164 | distinct track names give distinct paths under kktracks with extension m4a |
| Playback.Lookup | ChaChaFM/ContentView.swift:164-167 | the lookup finds a file iff the bundle holds the track's path, and then returns that path |
| Playback.LookupInjective | ChaChaFM/ContentView.swift:164 | two names that resolve resolve to the same file iff they are the same name |
| Playback.Resumed | ChaChaFM/ContentView.swift:173 | play on an optional player: a loaded player plays, same file and loop count; no player stays none |
| Playback.Halted | ChaChaFM/ContentView.swift:128 | pause or stop on an optional player: nothing plays afterwards, the loaded file and loop count stay |
| Playback.AfterPlay | ChaChaFM/ContentView.swift:163-177 | a missing file or a player that cannot be built leaves the state unchanged; otherwise the resolved file is loaded and playing, looping forever on a newly built player when none was loaded or another file was, keeping the player's loop count when the same file was loaded |
| Playback.AfterStop | ChaChaFM/ContentView.swift:179-181 | nothing plays afterwards; a loaded file stays loaded with its loop count; no player stays no player |
| Playback.AfterInterruption | ChaChaFM/ContentView.swift:120-137 | the loaded file never changes; a beginning leaves nothing playing; an ending whose options carry shouldResume resumes a loaded player, whatever its state; an ending whose options lack it, an ending without options and an undecodable notification change nothing |
| Playback.AfterRouteChange | ChaChaFM/ContentView.swift:138-157 | the loaded file never changes; a new device leaves a loaded player playing; losing the old device leaves nothing playing; an undecodable or other reason changes nothing |
| Playback.PlayIdempotent | ChaChaFM/ContentView.swift:169-173 | playing the same file twice gives the state of playing it once |
| Playback.PlayAgainReusesPlayer | ChaChaFM/ContentView.swift:169-173 | after a successful play of a name, playing it again needs no new player and changes nothing, whether or not a player could be built |
| Playback.PlaySwapsTrack | ChaChaFM/ContentView.swift:164-173 | playing one track and then a different one that resolves and opens leaves exactly the second loaded, playing, looping forever |
| Playback.StopThenPlayResumes | ChaChaFM/ContentView.swift:169-181 | stopping and then playing the loaded file resumes it on the same player |
| Playback.InterruptionRoundTrip | ChaChaFM/ContentView.swift:127-136 | a playing track pauses when an interruption begins and, when it ends, plays again iff the options carry shouldResume; an ending without options leaves it paused |
| Playback.OldDeviceUnavailableNeverResumes | ChaChaFM/ContentView.swift:149-153 | losing the old device never leaves the player playing and leaves a non-playing state unchanged |
| Playback.StoppedTrackResumesOnPlatformEvents | ChaChaFM/ContentView.swift:129-148 | a stopped loaded track plays again on a new output device or on an interruption ending with shouldResume |
| Playback.ApplyKeepsConsistent | ChaChaFM/ContentView.swift:169-171 | every operation keeps the invariant that a loaded player loops forever over a file of the bundle |
| Playback.RunKeepsConsistent | ChaChaFM/ContentView.swift:99-182 | any sequence of play, stop, interruption and route-change events keeps that invariant |
| Playback.RunKeepsPlayer | ChaChaFM/ContentView.swift:169-181 | once a player is loaded, a player stays loaded through any sequence of events: it is replaced, never released |
| Playback.Player.constructor | ChaChaFM/ContentView.swift:170 | a new player is over the given file, not playing, playing once |
| Playback.AudioPlayer.constructor | ChaChaFM/ContentView.swift:102-105 | a new audio player holds no player |
| Playback.AudioPlayer.WasPlayingBeforeRouteChange | ChaChaFM/ContentView.swift:159-161 | true iff a player is loaded and playing |
| Playback.AudioPlayer.PlayAudio | ChaChaFM/ContentView.swift:163-177 | the new state is AfterPlay of the old; the object's player is a fresh one exactly when one had to be built and was, and the same object otherwise; the invariant is kept |
| Playback.AudioPlayer.StopPlayback | ChaChaFM/ContentView.swift:179-181 | the new state is AfterStop of the old, on the same player object |
| Playback.AudioPlayer.HandleInterruption | ChaChaFM/ContentView.swift:120-137 | the new state is AfterInterruption of the old, on the same player object |
| Playback.AudioPlayer.HandleRouteChange | ChaChaFM/ContentView.swift:138-161 | the new state is AfterRouteChange of the old, on the same player object |
| Screen.PlayHour | ChaChaFM/ContentView.swift:48-54 | asking for the hour's track either changes nothing or leaves the track of that hour playing |
| Screen.AfterToggle | ChaChaFM/ContentView.swift:25-31 | the button flips the flag, then plays the hour's track when the flag became true and stops otherwise |
| Screen.AfterTick | ChaChaFM/ContentView.swift:42-46 | a tick keeps the flag, changes nothing while the flag is false and asks for the hour's track while it is true |
| Screen.AfterAppear | ChaChaFM/ContentView.swift:39-41 | appearing keeps the flag and asks for the hour's track regardless of it |
| Screen.ToggleTwice | ChaChaFM/ContentView.swift:25-31 | from the enabled state, one press stops the player (nothing plays) and a second press re-enables and asks for the hour's track |
| Screen.TickWithinHourIsNoOp | ChaChaFM/ContentView.swift:42-46 | once the hour's track has started, another tick in the same hour changes nothing |
| Screen.TickAtNewHourSwapsTrack | ChaChaFM/ContentView.swift:42-54 | the first tick of a different hour whose track opens leaves only that hour's track loaded, playing, looping forever |
| Screen.FlagAndPlayerDiverge | ChaChaFM/ContentView.swift:25-46 | after a press pauses a loaded track, a new output device starts it again while the flag is false, and ticks leave it so |
| Screen.ViewStepsKeepConsistent | ChaChaFM/ContentView.swift:25-46 | the button, the tick and appearing keep the player invariant |
| Screen.ContentView.constructor | ChaChaFM/ContentView.swift:13-15 | a new view has the flag set and an audio player with no player |
| Screen.ContentView.PlayAudioForCurrentHour | ChaChaFM/ContentView.swift:48-54 | the player's new state is PlayHour of the old for the given hour |
| Screen.ContentView.Toggle | ChaChaFM/ContentView.swift:25-31 | the view's new flag and player state are AfterToggle of the old |
| Screen.ContentView.Tick | ChaChaFM/ContentView.swift:42-46 | the view's new flag and player state are AfterTick of the old |
| Screen.ContentView.Appear | ChaChaFM/ContentView.swift:39-41 | the view's new flag and player state are AfterAppear of the old |

## Left out

- Reading the clock and the calendar (`Date()`, `Calendar.current`): the hour and the day of the year are parameters; time zones and calendar arithmetic belong to the platform.
- The audio session category and activation in `setupAudioPlayer`, with its logged error: a platform side effect that does not change the player's state.
- Notification registration and the decoding of `userInfo`: the handlers take the decoded interruption or route-change reason, `None` standing for a notification that cannot be decoded (a no-op, as in the code).
- Audio decoding and output of `AVAudioPlayer`: whether building a player throws is the parameter `opens`; `play()` is taken to always start playback (its boolean result is ignored by the code); `stop()` and `pause()` differ only in resources the model does not track.
- The bundle's absolute file URLs: a file is named by its path inside the bundle.
- Releasing a replaced player (which silences it on the platform): the model simply drops it; only the held player is observable.
- The `player` parameter of `AudioPlayer.init`, which the code ignores.
- Threads: the notification handlers are registered without a queue, so the platform may call them on any thread; the model assumes they run one at a time, serialised with the button, timer and appear actions, and does not model races on `player`.
- The SwiftUI layout, images and button icons, the `Timer.publish` plumbing (each firing is one `Tick` call), the unused `volume` state, the preview, and the `print` logging.
