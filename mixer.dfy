/** The single music channel of the sound mixer, as far as the chain watcher uses it:
    one track loaded at a time, played once or looped, at one volume. */
module Mixer {

  class MusicPlayer {
    /** Whether the channel is playing (the mixer's `get_busy`). */
    var busy: bool
    /** The track last loaded. */
    var track: string
    /** Whether the last `play` asked for an endless loop. */
    var looping: bool
    /** The channel volume, copied through as given. */
    var volume: real
    /** How many times playback has been (re)started from the top. */
    ghost var starts: nat

    constructor ()
      ensures !busy && track == "" && !looping && volume == 1.0 && starts == 0
    {
      busy, track, looping, volume := false, "", false, 1.0;
      starts := 0;
    }

    /** Loading a track stops whatever was playing. */
    method Load(t: string)
      modifies this
      ensures !busy && track == t
      ensures looping == old(looping) && volume == old(volume) && starts == old(starts)
    {
      busy, track := false, t;
    }

    method SetVolume(v: real)
      modifies this
      ensures volume == v
      ensures busy == old(busy) && track == old(track) && looping == old(looping) && starts == old(starts)
    {
      volume := v;
    }

    /** Starts the loaded track from the top, once or (`loop`) forever. */
    method Play(loop: bool)
      modifies this
      ensures busy && looping == loop && starts == old(starts) + 1
      ensures track == old(track) && volume == old(volume)
    {
      busy, looping := true, loop;
      starts := starts + 1;
    }

    method Stop()
      modifies this
      ensures !busy
      ensures track == old(track) && looping == old(looping) && volume == old(volume) && starts == old(starts)
    {
      busy := false;
    }

    method GetBusy() returns (b: bool)
      ensures b == busy
    {
      b := busy;
    }
  }
}
