/** Command-line validation at startup. Arguments are checked in order and
    the first failing check ends the program with a usage message; here it
    becomes the matching error. Number parsing and the MIDI device count
    belong to the platform and are passed in. */
module Startup {
  import opened Results
  import opened Settings
  import Midi

  /** Which check failed, in the order the checks are made. */
  datatype UsageError =
    | IncorrectArgumentCount
    | BadDeviceId
    | BadChannel
    | BadFps
    | BadEnablement
    | BadMinX | BadMaxX | BadMinY | BadMaxY

  /** A successful startup: the MIDI output device and the loop settings. */
  datatype Launch = Launch(deviceId: int, settings: Settings)

  /** The keyword for each enablement setting. */
  function Keyword(e: ControllerEnablement): string {
    match e
    case All => "all"
    case NoControllers => "none"
    case LeftX => "lx"
    case LeftY => "ly"
    case RightX => "rx"
    case RightY => "ry"
  }

  /** The fourth argument's switch. */
  function ParseEnablement(k: string): (r: Option<ControllerEnablement>)
    ensures r.Some? <==> k in {"all", "none", "lx", "ly", "rx", "ry"}
    ensures r.Some? ==> Keyword(r.value) == k
  {
    if k == "all" then Some(All)
    else if k == "none" then Some(NoControllers)
    else if k == "lx" then Some(LeftX)
    else if k == "ly" then Some(LeftY)
    else if k == "rx" then Some(RightX)
    else if k == "ry" then Some(RightY)
    else None
  }

  lemma KeywordRoundTrip(e: ControllerEnablement)
    ensures ParseEnablement(Keyword(e)) == Some(e)
  {
  }

  /** Validates the eight arguments. `parseInt` and `parseFloat` stand for
      the platform's integer and float parsers (None when the text is not a
      number); `deviceCount` is the number of MIDI output devices. */
  function ParseArguments(args: seq<string>, deviceCount: int,
                          parseInt: string -> Option<int>,
                          parseFloat: string -> Option<real>): (r: Result<Launch, UsageError>)
    ensures r.Ok? <==>
              && |args| == 8
              && parseInt(args[0]).Some? && 0 <= parseInt(args[0]).value < deviceCount
              && parseInt(args[1]).Some? && Midi.IsChannel(parseInt(args[1]).value)
              && parseInt(args[2]).Some? && 1 <= parseInt(args[2]).value <= 100
              && ParseEnablement(args[3]).Some?
              && parseFloat(args[4]).Some? && parseFloat(args[5]).Some?
              && parseFloat(args[6]).Some? && parseFloat(args[7]).Some?
    ensures r.Ok? ==>
              && r.value.deviceId == parseInt(args[0]).value
              && r.value.settings == Settings(
                   parseInt(args[1]).value, parseInt(args[2]).value,
                   ParseEnablement(args[3]).value,
                   parseFloat(args[4]).value, parseFloat(args[5]).value,
                   parseFloat(args[6]).value, parseFloat(args[7]).value)
    ensures r == Err(IncorrectArgumentCount) <==> |args| != 8
    ensures r == Err(BadEnablement) ==> |args| == 8 && ParseEnablement(args[3]).None?
  {
    if |args| != 8 then Err(IncorrectArgumentCount)
    else
      var device := parseInt(args[0]);
      if device.None? || device.value < 0 || device.value >= deviceCount then Err(BadDeviceId)
      else
        var channel := parseInt(args[1]);
        if channel.None? || channel.value < 0 || channel.value >= 16 then Err(BadChannel)
        else
          var fps := parseInt(args[2]);
          if fps.None? || fps.value < 1 || fps.value > 100 then Err(BadFps)
          else
            match ParseEnablement(args[3])
            case None => Err(BadEnablement)
            case Some(e) =>
              var minX := parseFloat(args[4]);
              var maxX := parseFloat(args[5]);
              var minY := parseFloat(args[6]);
              var maxY := parseFloat(args[7]);
              if minX.None? then Err(BadMinX)
              else if maxX.None? then Err(BadMaxX)
              else if minY.None? then Err(BadMinY)
              else if maxY.None? then Err(BadMaxY)
              else Ok(Launch(device.value, Settings(channel.value, fps.value, e,
                                                     minX.value, maxX.value, minY.value, maxY.value)))
  }

  /** An accepted command line gives a usable channel and frame rate, so the
      per-tick pause `1000 / fps` is defined and lies in 10..1000 ms. */
  lemma AcceptedSettingsUsable(args: seq<string>, deviceCount: int,
                               parseInt: string -> Option<int>,
                               parseFloat: string -> Option<real>)
    requires ParseArguments(args, deviceCount, parseInt, parseFloat).Ok?
    ensures var s := ParseArguments(args, deviceCount, parseInt, parseFloat).value.settings;
            && Midi.IsChannel(s.channel)
            && 1 <= s.fps <= 100
            && 10 <= FrameDelay(s.fps) <= 1000
            && Keyword(s.enablement) == args[3]
  {
  }

  /** Bounds are not compared at startup: equal bounds are accepted, and
      they leave the settings outside what the frame loop can use. */
  lemma EqualBoundsAccepted()
    ensures var args := ["0", "0", "25", "all", "1", "1", "0", "1"];
            var parseInt := (t: string) => if t == "0" then Some(0) else if t == "25" then Some(25) else None;
            var parseFloat := (t: string) => if t == "0" then Some(0.0) else if t == "1" then Some(1.0) else None;
            var r := ParseArguments(args, 1, parseInt, parseFloat);
            r.Ok? && !ValidSettings(r.value.settings)
  {
  }
}
