/** The iOS method-channel handler of AppDelegate: the fixed five-band
    parametric equalizer, the slider-to-decibel gain write, the play/pause
    toggle, the first-output route name and the load-then-play sequence. */
module IosAudio {
  import opened Channel

  // ---------------------------------------------------------------------------
  // Equalizer bands
  // ---------------------------------------------------------------------------

  /** The filter shapes an AVAudioUnitEQ band can take. */
  datatype FilterType =
    | Parametric | LowPass | HighPass | ResonantLowPass | ResonantHighPass
    | BandPass | BandStop | LowShelf | HighShelf | ResonantLowShelf | ResonantHighShelf

  /** The parameters of one band of the EQ node. */
  datatype EqBand = EqBand(filterType: FilterType, frequency: real, bandwidth: real,
                           gain: real, bypass: bool)

  /** The EQ node is created with this many bands. */
  const BandCount := 5

  /** Centre frequencies in Hz, one per band, lowest first. */
  const CenterFrequencies: seq<real> := [60.0, 250.0, 1000.0, 4000.0, 16000.0]

  /** Decibels for a slider position in [0, 1]: a linear map centred on 0.5. */
  function GainDb(slider: real): (db: real)
    ensures SliderPosition(db) == slider
    ensures 0.0 <= slider <= 1.0 <==> -12.0 <= db <= 12.0
    ensures slider == 0.5 <==> db == 0.0
    ensures slider == 0.0 ==> db == -12.0
    ensures slider == 1.0 ==> db == 12.0
  {
    (slider - 0.5) * 24.0
  }

  /** The inverse of GainDb: the slider position that produces `db`. */
  function SliderPosition(db: real): real {
    db / 24.0 + 0.5
  }

  /** Every decibel value is reached by exactly one slider position. */
  lemma GainDbBijective(db: real, slider: real)
    ensures GainDb(SliderPosition(db)) == db
    ensures GainDb(slider) == db <==> slider == SliderPosition(db)
  {
  }

  /** Equal slider steps give equal decibel steps, in the same direction. */
  lemma GainDbLinear(s1: real, s2: real)
    ensures GainDb(s2) - GainDb(s1) == (s2 - s1) * 24.0
    ensures s1 < s2 <==> GainDb(s1) < GainDb(s2)
  {
  }

  // ---------------------------------------------------------------------------
  // Output route
  // ---------------------------------------------------------------------------

  /** The AVAudioSession port kinds a route output can report. */
  datatype PortType =
    | Headphones | HeadsetMic | BluetoothA2dp | BluetoothLe | BluetoothHfp | UsbAudio
    | BuiltInSpeaker | BuiltInReceiver | Hdmi | AirPlay | LineOut | CarAudio | OtherPort

  datatype Port = Port(portType: PortType, portName: string)

  const NoOutputName := "Speaker"
  const WiredName := "Wired Headphones"
  const UsbName := "USB DAC"

  predicate IsWired(t: PortType) {
    t == Headphones || t == HeadsetMic
  }

  /** The `getDeviceName` classifier: only the first output of the route is
      looked at; wired and USB ports get fixed names, every other port
      (Bluetooth included) its own name, and an empty route "Speaker". */
  function RouteName(outputs: seq<Port>): (name: string)
    ensures outputs == [] ==> name == NoOutputName
    ensures outputs != [] && IsWired(outputs[0].portType) ==> name == WiredName
    ensures outputs != [] && outputs[0].portType == UsbAudio ==> name == UsbName
    ensures outputs != [] && !IsWired(outputs[0].portType) && outputs[0].portType != UsbAudio ==>
              name == outputs[0].portName
  {
    if outputs == [] then NoOutputName
    else
      var port := outputs[0];
      match port.portType
      case Headphones | HeadsetMic => WiredName
      case BluetoothA2dp | BluetoothLe | BluetoothHfp => port.portName
      case UsbAudio => UsbName
      case _ => port.portName
  }

  /** Outputs after the first never influence the name. */
  lemma RouteNameIgnoresLaterOutputs(first: Port, rest1: seq<Port>, rest2: seq<Port>)
    ensures RouteName([first] + rest1) == RouteName([first] + rest2)
    ensures RouteName([first] + rest1) == RouteName([first])
  {
  }

  // ---------------------------------------------------------------------------
  // Player node and the application delegate
  // ---------------------------------------------------------------------------

  /** An opened audio file, known by the path it was opened from. */
  datatype AudioFile = AudioFile(path: string)

  /** The AVAudioPlayerNode: whether it is playing, and the files scheduled on it. */
  class PlayerNode {
    var isPlaying: bool
    var scheduled: seq<AudioFile>

    constructor ()
      ensures !isPlaying && scheduled == []
    {
      isPlaying := false;
      scheduled := [];
    }

    /** Stops playback and drops everything scheduled. */
    method Stop()
      modifies this
      ensures !isPlaying && scheduled == []
    {
      isPlaying := false;
      scheduled := [];
    }

    method ScheduleFile(file: AudioFile)
      modifies this
      ensures scheduled == old(scheduled) + [file] && isPlaying == old(isPlaying)
    {
      scheduled := scheduled + [file];
    }

    method Play()
      modifies this
      ensures isPlaying && scheduled == old(scheduled)
    {
      isPlaying := true;
    }

    /** Pauses, keeping what is scheduled. */
    method Pause()
      modifies this
      ensures !isPlaying && scheduled == old(scheduled)
    {
      isPlaying := false;
    }
  }

  /** What the platform answers: whether the audio session can be set up and
      activated, which paths open as audio files, and the current route. */
  datatype IosEnvironment = IosEnvironment(sessionActivates: bool, readableFiles: set<string>,
                                           route: seq<Port>)

  const PlayingMessage := "PLAYING"

  /** The reply of `playAudio`: "PLAYING" when session setup and file open both
      succeed, an error otherwise. */
  function PlayReply(path: string, env: IosEnvironment): (r: Reply)
    ensures r.Success? <==> env.sessionActivates && path in env.readableFiles
    ensures r.Success? ==> r == Success(Text(PlayingMessage))
    ensures !r.Success? ==> r == Error("ERR")
  {
    if env.sessionActivates && path in env.readableFiles then Success(Text(PlayingMessage))
    else Error("ERR")
  }

  function PathArgument(call: MethodCall): Option<string> {
    if call.arguments.Some? && "path" in call.arguments.value &&
       call.arguments.value["path"].StringArg?
    then Some(call.arguments.value["path"].s)
    else None
  }

  /** The `band` (an Int) and `gain` (a Double) of `updateEqIOS`, when both are present. */
  function EqArguments(call: MethodCall): Option<(int, real)> {
    if call.arguments.Some? && "band" in call.arguments.value && "gain" in call.arguments.value &&
       call.arguments.value["band"].IntArg? && call.arguments.value["gain"].DoubleArg?
    then Some((call.arguments.value["band"].i, call.arguments.value["gain"].d))
    else None
  }

  class AppDelegate {
    const player: PlayerNode
    /** The bands of the EQ node, updated in place. */
    const bands: array<EqBand>
    var audioFile: Option<AudioFile>

    ghost predicate Valid()
      reads this
    {
      bands.Length == BandCount
    }

    /** The EQ node starts with five bands in whatever state the framework
        gives them; the player is idle and no file is loaded. */
    constructor (initialBands: seq<EqBand>)
      requires |initialBands| == BandCount
      ensures Valid() && fresh(player) && fresh(bands)
      ensures bands[..] == initialBands && audioFile == None
      ensures !player.isPlaying && player.scheduled == []
    {
      player := new PlayerNode();
      bands := new EqBand[BandCount](i requires 0 <= i < BandCount => initialBands[i]);
      audioFile := None;
    }

    /** `setupEqualizer`: every band becomes parametric at its centre
        frequency, one octave wide, flat and active. */
    method SetupEqualizer()
      requires Valid()
      modifies bands
      ensures forall i :: 0 <= i < BandCount ==>
                bands[i] == EqBand(Parametric, CenterFrequencies[i], 1.0, 0.0, false)
    {
      var freqs := CenterFrequencies;
      for i := 0 to BandCount
        invariant forall j :: 0 <= j < i ==> bands[j] == EqBand(Parametric, freqs[j], 1.0, 0.0, false)
      {
        bands[i] := bands[i].(filterType := Parametric);
        bands[i] := bands[i].(frequency := freqs[i]);
        bands[i] := bands[i].(bandwidth := 1.0);
        bands[i] := bands[i].(gain := 0.0);
        bands[i] := bands[i].(bypass := false);
      }
    }

    /** `updateEqIOS` with decoded arguments: set the gain of band `index` to
        the slider's decibel value when the node has that band; reply "OK"
        either way. A negative index traps in the source, so it is excluded. */
    method UpdateEq(index: int, slider: real) returns (reply: Reply)
      requires Valid() && 0 <= index
      modifies bands
      ensures reply == Success(Text("OK"))
      ensures index < BandCount ==>
                bands[..] == old(bands[..])[index := old(bands[index]).(gain := GainDb(slider))]
      ensures index >= BandCount ==> bands[..] == old(bands[..])
    {
      var dbValue := GainDb(slider);
      if index < bands.Length {
        bands[index] := bands[index].(gain := dbValue);
      }
      reply := Success(Text("OK"));
    }

    /** `pauseNativeIOS`: pause a playing node, resume a paused one, and reply
        with the new playing state. */
    method PauseNative() returns (reply: Reply)
      modifies player
      ensures player.isPlaying == !old(player.isPlaying)
      ensures player.scheduled == old(player.scheduled)
      ensures reply == Success(Flag(player.isPlaying))
    {
      if player.isPlaying {
        player.Pause();
        reply := Success(Flag(false));
      } else {
        player.Play();
        reply := Success(Flag(true));
      }
    }

    /** Two toggles in a row restore the playing state and answer with both
        states in turn. */
    method PauseNativeTwice() returns (first: Reply, second: Reply)
      modifies player
      ensures player.isPlaying == old(player.isPlaying)
      ensures player.scheduled == old(player.scheduled)
      ensures first == Success(Flag(!old(player.isPlaying)))
      ensures second == Success(Flag(old(player.isPlaying)))
    {
      first := PauseNative();
      second := PauseNative();
    }

    /** `playAudio`: set up the session and open the file; only then stop the
        player, schedule the new file and play. A failure before that point
        leaves the loaded file and the player as they were. */
    method PlayAudio(path: string, env: IosEnvironment) returns (reply: Reply)
      modifies this, player
      ensures reply == PlayReply(path, env)
      ensures reply.Success? ==>
                audioFile == Some(AudioFile(path)) && player.isPlaying &&
                player.scheduled == [AudioFile(path)]
      ensures !reply.Success? ==> audioFile == old(audioFile) && unchanged(player)
    {
      if !env.sessionActivates {
        reply := Error("ERR");
        return;
      }
      if path !in env.readableFiles {
        reply := Error("ERR");
        return;
      }
      var file := AudioFile(path);
      audioFile := Some(file);
      player.Stop();
      player.ScheduleFile(file);
      player.Play();
      reply := Success(Text(PlayingMessage));
    }

    /** The channel handler: dispatch on the method name; malformed arguments
        return without a reply and without touching anything. */
    method Handle(call: MethodCall, env: IosEnvironment) returns (reply: Reply)
      requires Valid()
      requires call.name == "updateEqIOS" && EqArguments(call).Some? ==> EqArguments(call).value.0 >= 0
      modifies this, player, bands
      ensures call.name == "playNativeIOS" && PathArgument(call).Some? ==>
                var path := PathArgument(call).value;
                && reply == PlayReply(path, env)
                && unchanged(bands)
                && (reply.Success? ==>
                      audioFile == Some(AudioFile(path)) && player.isPlaying &&
                      player.scheduled == [AudioFile(path)])
                && (!reply.Success? ==> audioFile == old(audioFile) && unchanged(player))
      ensures call.name == "updateEqIOS" && EqArguments(call).Some? ==>
                var (index, slider) := EqArguments(call).value;
                reply == Success(Text("OK")) && unchanged(this, player) &&
                bands[..] == (if index < BandCount
                              then old(bands[..])[index := old(bands[index]).(gain := GainDb(slider))]
                              else old(bands[..]))
      ensures call.name == "pauseNativeIOS" ==>
                reply == Success(Flag(!old(player.isPlaying))) && player.isPlaying == !old(player.isPlaying) &&
                player.scheduled == old(player.scheduled) && unchanged(this, bands)
      ensures call.name == "getDeviceName" ==> reply == Success(Text(RouteName(env.route)))
      ensures call.name == "activarEQ" ==> reply == Success(Text("OK"))
      ensures call.name !in {"playNativeIOS", "updateEqIOS", "pauseNativeIOS", "getDeviceName", "activarEQ"} ==>
                reply == NotImplemented
      ensures (call.name == "playNativeIOS" && PathArgument(call).None?) ||
              (call.name == "updateEqIOS" && EqArguments(call).None?) ==>
                reply == NoReply
      ensures (call.name == "playNativeIOS" && PathArgument(call).None?) ||
              (call.name == "updateEqIOS" && EqArguments(call).None?) ||
              call.name !in {"playNativeIOS", "updateEqIOS", "pauseNativeIOS"} ==>
                unchanged(this, player, bands)
    {
      if call.name == "playNativeIOS" {
        var path := PathArgument(call);
        if path.None? {
          return NoReply;
        }
        reply := PlayAudio(path.value, env);
      } else if call.name == "updateEqIOS" {
        var args := EqArguments(call);
        if args.None? {
          return NoReply;
        }
        reply := UpdateEq(args.value.0, args.value.1);
      } else if call.name == "pauseNativeIOS" {
        reply := PauseNative();
      } else if call.name == "getDeviceName" {
        reply := Success(Text(RouteName(env.route)));
      } else if call.name == "activarEQ" {
        reply := Success(Text("OK"));
      } else {
        reply := NotImplemented;
      }
    }
  }
}
