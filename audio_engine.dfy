/**
 * The audio engine the player drives, seen only through the commands the
 * player issues to it, in the order it issues them.
 */
module AudioEngine {

  datatype Command =
    | Load(file: string)  // load a track file, replacing the current one
    | Start               // start the loaded track from its beginning
    | Pause               // pause playback, keeping the position
    | Unpause             // resume playback at the paused position
    | Halt                // stop playback
}
