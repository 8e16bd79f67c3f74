/**
 * Mute logic of the sound manager: two flags, one for background music and
 * one for sound effects. The media objects are opaque; the music player is
 * modelled only by its playback state, the click clip only by whether it
 * was loaded.
 */
module Sound {

  /** Playback state of the background-music player; Absent when no music file was loaded. */
  datatype PlayerState = Absent | Ready | Playing | Paused | Stopped

  predicate Muted(music: bool, effects: bool) {
    !music && !effects
  }

  /** The two flags after toggleMute: all off if either was on, otherwise all on. */
  function ToggleMuteFlags(music: bool, effects: bool): (r: (bool, bool))
    ensures r.0 == r.1
    ensures Muted(r.0, r.1) <==> !Muted(music, effects)
  {
    if music || effects then (false, false) else (true, true)
  }

  /** Two toggles give back any state whose flags agree, and a mixed state ends up fully on. */
  lemma ToggleTwice(music: bool, effects: bool)
    ensures var once := ToggleMuteFlags(music, effects);
            ToggleMuteFlags(once.0, once.1) == if music == effects then (music, effects) else (true, true)
  {
  }

  class SoundManager {
    var musicEnabled: bool
    var soundEffectsEnabled: bool
    var music: PlayerState
    /** Whether the click sound effect was loaded. */
    const clickLoaded: bool

    /** Both flags start on; the resources either load or not. */
    constructor (musicLoaded: bool, clickLoaded: bool)
      ensures musicEnabled && soundEffectsEnabled && !IsMuted()
      ensures music == (if musicLoaded then Ready else Absent)
      ensures this.clickLoaded == clickLoaded
    {
      musicEnabled, soundEffectsEnabled := true, true;
      music := if musicLoaded then Ready else Absent;
      this.clickLoaded := clickLoaded;
    }

    /** Muted means both the music and the sound effects are off. */
    predicate IsMuted(): (m: bool)
      reads this
      ensures m <==> !musicEnabled && !soundEffectsEnabled
    {
      Muted(musicEnabled, soundEffectsEnabled)
    }

    /** Starts the music only when a player exists and music is enabled. */
    method PlayBackgroundMusic()
      modifies this
      ensures music == (if old(music) != Absent && musicEnabled then Playing else old(music))
      ensures musicEnabled == old(musicEnabled) && soundEffectsEnabled == old(soundEffectsEnabled)
    {
      if music != Absent && musicEnabled {
        music := Playing;
      }
    }

    method StopBackgroundMusic()
      modifies this
      ensures music == (if old(music) != Absent then Stopped else Absent)
      ensures musicEnabled == old(musicEnabled) && soundEffectsEnabled == old(soundEffectsEnabled)
    {
      if music != Absent {
        music := Stopped;
      }
    }

    method PauseBackgroundMusic()
      modifies this
      ensures music == (if old(music) != Absent then Paused else Absent)
      ensures musicEnabled == old(musicEnabled) && soundEffectsEnabled == old(soundEffectsEnabled)
    {
      if music != Absent {
        music := Paused;
      }
    }

    /** Whether a click is heard: only with a loaded clip and sound effects on. */
    method PlayClickSound() returns (played: bool)
      ensures played <==> clickLoaded && soundEffectsEnabled
    {
      played := clickLoaded && soundEffectsEnabled;
    }

    /** Sets the music flag and pauses or resumes the player to match; the effects flag is kept. */
    method SetMusicEnabled(enabled: bool)
      modifies this
      ensures musicEnabled == enabled && soundEffectsEnabled == old(soundEffectsEnabled)
      ensures music == (if old(music) == Absent then Absent else if enabled then Playing else Paused)
    {
      musicEnabled := enabled;
      if !enabled && music != Absent {
        music := Paused;
      } else if enabled && music != Absent {
        music := Playing;
      }
    }

    /** Sets the effects flag; the music flag and the player are kept. */
    method SetSoundEffectsEnabled(enabled: bool)
      modifies this
      ensures soundEffectsEnabled == enabled && musicEnabled == old(musicEnabled)
      ensures music == old(music)
    {
      soundEffectsEnabled := enabled;
    }

    /** Flips the mute state and returns whether the manager is now muted. */
    method ToggleMute() returns (nowMuted: bool)
      modifies this
      ensures (musicEnabled, soundEffectsEnabled) == ToggleMuteFlags(old(musicEnabled), old(soundEffectsEnabled))
      ensures nowMuted == IsMuted()
      ensures nowMuted <==> !old(IsMuted())
      ensures music == (if old(music) == Absent then Absent else if nowMuted then Paused else Playing)
    {
      var shouldMute := musicEnabled || soundEffectsEnabled;
      if shouldMute {
        SetMusicEnabled(false);
        SetSoundEffectsEnabled(false);
      } else {
        SetMusicEnabled(true);
        SetSoundEffectsEnabled(true);
      }
      nowMuted := !musicEnabled;
    }
  }
}
