/**
 * The player object: its playback state and song index, updated in place by
 * the action methods, and the position slider it refreshes. The commands
 * issued to the audio engine and the diagnostics printed are kept as ghost
 * logs, so that each method can be stated against PlayerSpec.
 */
module Player {
  import opened Options
  import opened TransitionTable
  import opened PlayerSpec
  import AudioEngine
  import TimeDisplay

  /** The files of the three songs the player is built with, in playlist order. */
  const SongFiles: seq<string> := ["song1.mp3", "song2.mp3", "song3.mp3"]

  /** The song length in seconds the slider uses: by index, and 212 for any index past the second. */
  function SongLength(index: int): (length: nat)
    ensures index == 0 ==> length == 206
    ensures index == 1 ==> length == 170
    ensures length == 212 <==> index != 0 && index != 1
  {
    if index == 0 then 206 else if index == 1 then 170 else 212
  }

  /** What one refresh of the slider shows: its range, its position and the two time labels. */
  datatype Slider = Slider(length: nat, position: int, elapsedText: string, totalText: string)

  class MusicPlayerFsm {
    var state: State
    var currentSong: int
    const songs: seq<string>
    ghost var log: seq<AudioEngine.Command>
    ghost var diagnostics: seq<Diagnostic>

    ghost function Model(): Snapshot
      reads this
    {
      Snapshot(state, currentSong, log, diagnostics)
    }

    /** The song index is in range and the playback state agrees with the engine. */
    ghost predicate Valid()
      reads this
    {
      InRange(songs, Model()) && EngineAgrees(Model())
    }

    constructor ()
      ensures Valid()
      ensures songs == SongFiles && Model() == Initial
    {
      state := Stopped;
      currentSong := 0;
      songs := SongFiles;
      log := [];
      diagnostics := [];
    }

    /** Follows the table's entry for `a` when the current row has one; otherwise records a diagnostic. */
    method Transition(a: Action)
      modifies this
      ensures Model() == TransitionStep(old(Model()), a)
    {
      if a in Row(state) {
        state := Row(state)[a];
      } else {
        diagnostics := diagnostics + [CannotTransition(state, a)];
      }
    }

    method Play()
      requires Valid()
      modifies this
      ensures Valid() && Model() == PlayStep(songs, old(Model()))
      ensures state == Playing && currentSong == old(currentSong)
    {
      if state == Paused {
        log := log + [AudioEngine.Unpause];
        Transition(Action.Play);
      } else {
        var songFile := songs[currentSong];
        Transition(Action.Play);
        log := log + [AudioEngine.Load(songFile)];
        log := log + [AudioEngine.Start];
      }
    }

    method Pause()
      requires Valid()
      modifies this
      ensures Valid() && Model() == PauseStep(old(Model()))
      ensures old(state) != Playing ==> Model() == old(Model())
    {
      if state == Playing {
        log := log + [AudioEngine.Pause];
        Transition(Action.Pause);
      }
    }

    method Stop()
      requires Valid()
      modifies this
      ensures Valid() && Model() == StopStep(old(Model()))
      ensures state == Stopped && currentSong == old(currentSong)
    {
      Transition(Action.Stop);
      log := log + [AudioEngine.Halt];
    }

    method NextSong()
      requires Valid()
      modifies this
      ensures Valid() && Model() == NextStep(songs, old(Model()))
      ensures state == Playing
    {
      currentSong := (currentSong + 1) % |songs|;
      var songFile := songs[currentSong];
      log := log + [AudioEngine.Load(songFile)];
      log := log + [AudioEngine.Start];
      Transition(Action.Play);
    }

    method BackSong()
      requires Valid()
      modifies this
      ensures Valid() && Model() == BackStep(songs, old(Model()))
      ensures state == Playing
    {
      currentSong := (currentSong - 1) % |songs|;
      var songFile := songs[currentSong];
      log := log + [AudioEngine.Load(songFile)];
      log := log + [AudioEngine.Start];
      Transition(Action.Play);
    }

    /** One tick of the completion timer; `busy` is what the engine reports. */
    method CheckSongCompletion(busy: bool)
      requires Valid()
      modifies this
      ensures Valid() && Model() == CompletionTick(songs, old(Model()), busy)
    {
      if state == Playing && !busy {
        NextSong();
      }
    }

    /**
     * One refresh of the slider while playing; `posMs` is the engine's
     * playback position in milliseconds. Changes nothing in the player.
     */
    method UpdateSlider(posMs: int) returns (view: Option<Slider>)
      ensures view.Some? <==> state == Playing
      ensures view.Some? ==> view.value.length == SongLength(currentSong)
      ensures view.Some? ==> view.value.position * 1000 <= posMs < view.value.position * 1000 + 1000
      ensures view.Some? ==> view.value.elapsedText == TimeDisplay.ClockText(view.value.position)
      ensures view.Some? ==> view.value.totalText == TimeDisplay.ClockText(view.value.length)
      ensures view.Some? ==> TimeDisplay.ParseClock(view.value.elapsedText) == Some(view.value.position)
      ensures view.Some? ==> TimeDisplay.ParseClock(view.value.totalText) == Some(view.value.length)
    {
      if state == Playing {
        var position := posMs / 1000;
        var length := SongLength(currentSong);
        var elapsedText := TimeDisplay.ClockText(position);
        var totalText := TimeDisplay.ClockText(length);
        TimeDisplay.ClockTextRoundTrip(position);
        TimeDisplay.ClockTextRoundTrip(length);
        view := Some(Slider(length, position, elapsedText, totalText));
      } else {
        view := None;
      }
    }
  }
}
