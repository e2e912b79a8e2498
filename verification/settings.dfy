/** The run-time configuration chosen on the command line. */
module Settings {
  import Midi

  /** Which position controllers are sent. The program declares these as
      bit flags (x and y of the left hand, then of the right hand) but only
      ever compares a setting for equality with one of them. */
  datatype ControllerEnablement = All | LeftX | LeftY | RightX | RightY | NoControllers

  /** The flag value the program declares for each setting. */
  function Mask(e: ControllerEnablement): bv4 {
    match e
    case All => 0xF
    case LeftX => 0x1
    case LeftY => 0x2
    case RightX => 0x4
    case RightY => 0x8
    case NoControllers => 0x0
  }

  datatype Settings = Settings(
    channel: int,
    fps: int,
    enablement: ControllerEnablement,
    minX: real, maxX: real, minY: real, maxY: real)

  /** What the frame loop needs of its settings: a MIDI channel, a frame rate
      in 1..100, and bounds that do not divide by zero. */
  predicate ValidSettings(s: Settings) {
    Midi.IsChannel(s.channel) && 1 <= s.fps <= 100 && s.minX != s.maxX && s.minY != s.maxY
  }

  /** The pause after each tick, in milliseconds (integer division). */
  function FrameDelay(fps: int): (ms: int)
    requires 1 <= fps <= 100
    ensures 10 <= ms <= 1000
    ensures ms * fps <= 1000 < (ms + 1) * fps
  {
    1000 / fps
  }
}
