# AudioGod EQ platform handlers, modelled in Dafny

AudioGod EQ is a Flutter equalizer app. Two method-channel handlers make up its
native side. On Android, `MainActivity` drives the platform `Equalizer` effect.
On iOS, `AppDelegate` drives an `AVAudioUnitEQ` node and an `AVAudioPlayerNode`.
Most of their code is calls into the operating system. This project models the
decisions those handlers make between the calls:

- `channel.dfy` (module `Channel`): the calls a handler receives and the replies
  it sends. `NoReply` stands for the paths that return without calling `result`.
- `android_audio.dfy` (module `AndroidAudio`) models `MainActivity.kt`:
  - the `getDeviceName` loop, which picks a product name by device category
    (USB over Bluetooth over wired, first device wins a tie);
  - the rescale of a caller band index from a 5-band space onto the device's
    band count, and the guard in front of the write;
  - the `activarEQ` chain: release, create at priority 1000, otherwise fall back
    to priority 0 on session 0, otherwise reply with an error.
  The `Equalizer` effect is a class with the state the handler touches.
  `MainActivity` owns it through its `equalizer` field.
- `ios_audio.dfy` (module `IosAudio`) models `AppDelegate.swift`:
  - the five-band set-up;
  - the slider-to-decibel gain write, guarded by the band index;
  - the play/pause toggle;
  - the first-output route name;
  - the load-then-play sequence.
  The EQ node's bands are an array updated in place. The player node is a class.

Whatever the operating system decides is an input to the model. That covers
whether an `Equalizer` can be created, the band levels a new effect starts with,
the device list or its exception, whether the audio session activates, which
files open, and the current route.

Four things in the source behave in ways worth knowing:

- After a failed `activarEQ`, `equalizer` still points at the old, released
  effect, because the failing constructor never reaches the assignment. A later
  `setBandLevel` then throws inside its `try` and sends no reply.
- The band guard `targetBand < numBands` has no lower bound, so on a device
  with bands every negative band index passes it (`NegativeBandPassesGuard`).
  `toInt()` truncates toward zero, which gives two cases:
  - When `band * numBands <= -5`, the target is negative. The effect rejects the
    index, the exception is swallowed, and the reply is nothing. The model follows
    this path through `EqualizerEffect.SetBandLevel`.
  - When `-5 < band * numBands < 0`, the target truncates to 0. Band 0 is written
    and the reply is "OK" (`SmallNegativeBandWritesBandZero`).
- No band in 0..4 is ever clipped by the guard. While the target fits in a
  Short (its `toShort()` wraps beyond that), the guard rejects exactly the
  indices of 5 and up, and every index when the device has no bands
  (`GuardAcceptsExactly`).
- `equalizer?.numberOfBands ?: 5` never uses its default, because the effect was
  checked to be non-null just before. The model reads the band count directly.

## Model

| member | source | states |
|---|---|---|
| `AndroidAudio.Category` | android/app/src/main/kotlin/com/moran/audio_god_eq/MainActivity.kt:57-62 | every rank is at most 3; rank 0 exactly for types outside the six USB, Bluetooth and wired constants |
| `AndroidAudio.MaxRank` | android/app/src/main/kotlin/com/moran/audio_god_eq/MainActivity.kt:54-64 | the highest rank present: no device ranks above it, and a device has it unless it is 0 |
| `AndroidAudio.FirstOfRank` | android/app/src/main/kotlin/com/moran/audio_god_eq/MainActivity.kt:57-62 | the index of the first device of a given rank: it has that rank and no earlier device does |
| `AndroidAudio.DisplayName` | android/app/src/main/kotlin/com/moran/audio_god_eq/MainActivity.kt:53-65 | "Altavoz" when no device is ranked; otherwise the product name of a device of the highest rank with every earlier device ranked strictly lower |
| `AndroidAudio.PriorityAfter` | android/app/src/main/kotlin/com/moran/audio_god_eq/MainActivity.kt:54-63 | the loop's `priority` after a list: -1 exactly when no device is ranked, otherwise the highest rank present (1 to 3) |
| `AndroidAudio.DisplayNameAppend` | android/app/src/main/kotlin/com/moran/audio_god_eq/MainActivity.kt:57-62 | a further device takes over the name exactly when its rank beats every rank seen so far; a tie or a lower rank changes nothing |
| `AndroidAudio.DisplayNameIsFirstOfHighestRank` | android/app/src/main/kotlin/com/moran/audio_god_eq/MainActivity.kt:57-62 | the first device of the highest rank is the one named, whatever follows it |
| `AndroidAudio.UnrankedDeviceChangesNothing` | android/app/src/main/kotlin/com/moran/audio_god_eq/MainActivity.kt:57-63 | a device whose type is none of the six constants leaves both name and priority unchanged |
| `AndroidAudio.PriorityNeverDecreases` | android/app/src/main/kotlin/com/moran/audio_god_eq/MainActivity.kt:54-63 | the loop's priority never decreases as more devices are scanned |
| `AndroidAudio.NameChangesOnlyWithPriority` | android/app/src/main/kotlin/com/moran/audio_god_eq/MainActivity.kt:54-63 | each step changes the name only when the priority strictly rises |
| `AndroidAudio.SelectDeviceName` | android/app/src/main/kotlin/com/moran/audio_god_eq/MainActivity.kt:53-64 | the loop over the device list returns `DisplayName` of the list |
| `AndroidAudio.GetDeviceName` | android/app/src/main/kotlin/com/moran/audio_god_eq/MainActivity.kt:50-66 | always a success: "Android Audio" when the device query throws, otherwise the selected name |
| `AndroidAudio.TargetBand` | android/app/src/main/kotlin/com/moran/audio_god_eq/MainActivity.kt:41 | the rescaled band is `band * numBands / 5` truncated toward zero: non-negative and rounded down for a non-negative band, non-positive and rounded up for a negative one |
| `AndroidAudio.GuardAcceptsExactly` | android/app/src/main/kotlin/com/moran/audio_god_eq/MainActivity.kt:40-42 | for a non-negative band the guard passes if and only if the band is below 5 and the device has bands |
| `AndroidAudio.TargetBandMonotone` | android/app/src/main/kotlin/com/moran/audio_god_eq/MainActivity.kt:41 | the rescale is monotone in the band index |
| `AndroidAudio.NegativeBandPassesGuard` | android/app/src/main/kotlin/com/moran/audio_god_eq/MainActivity.kt:41-42 | a negative band always passes the guard, and its target is negative exactly when `band * numBands <= -5` |
| `AndroidAudio.SmallNegativeBandWritesBandZero` | android/app/src/main/kotlin/com/moran/audio_god_eq/MainActivity.kt:41-44 | a negative band with `band * numBands > -5` truncates to band 0, which is written |
| `AndroidAudio.ToShort` | android/app/src/main/kotlin/com/moran/audio_god_eq/MainActivity.kt:43 | `level.toShort()` lies in the Short range, agrees with the level modulo 65536, and is the level itself when that fits |
| `AndroidAudio.PlannedBandWrite` | android/app/src/main/kotlin/com/moran/audio_god_eq/MainActivity.kt:38-43 | a write happens only with both arguments on a live effect, and always at the rescaled target, which lies in `0 <= t < numBands`; with all of those present it is skipped only when the target is out of range. The upper bound is the handler's guard at line 42. The lower bound is the effect's own index check, whose exception line 46 swallows |
| `AndroidAudio.PlannedBandWriteInRange` | android/app/src/main/kotlin/com/moran/audio_god_eq/MainActivity.kt:38-45 | every band 0..4 with a level, on a live effect that has bands, is written |
| `AndroidAudio.DecimalDigits` | android/app/src/main/kotlin/com/moran/audio_god_eq/MainActivity.kt:26 | the decimal digits of a non-negative number: nonempty, digits only, no leading zero unless the text is "0", and reading them back gives the number |
| `AndroidAudio.DecimalString` | android/app/src/main/kotlin/com/moran/audio_god_eq/MainActivity.kt:26 | the `$sessionId` rendering: a leading minus exactly for negative numbers, followed by digits with no leading zero (never "-0"), and reading it back gives the number |
| `AndroidAudio.ActiveMessage` | android/app/src/main/kotlin/com/moran/audio_god_eq/MainActivity.kt:26 | "EQ Android Activo ID:" followed by the session id as Kotlin writes an `Int`: a minus exactly when it is negative, digits with no leading zero, reading back as the id |
| `AndroidAudio.DecimalDigitsOfValue` | android/app/src/main/kotlin/com/moran/audio_god_eq/MainActivity.kt:26 | every digit string without a leading zero is the rendering of the number it denotes, so the digits of a number are the only such string |
| `AndroidAudio.DecimalStringOfValue` | android/app/src/main/kotlin/com/moran/audio_god_eq/MainActivity.kt:26 | every signed numeral without a leading zero or "-0" is the rendering of its value, so `$sessionId` is the only such text for the id |
| `AndroidAudio.ActivationReply` | android/app/src/main/kotlin/com/moran/audio_god_eq/MainActivity.kt:24-33 | the reply is an error if and only if both creations fail; the primary success names the session; the fallback replies "EQ Activo (Respaldo)" |
| `AndroidAudio.MainActivity.constructor` | android/app/src/main/kotlin/com/moran/audio_god_eq/MainActivity.kt:13 | the activity starts without an equalizer |
| `AndroidAudio.MainActivity.ActivarEq` | android/app/src/main/kotlin/com/moran/audio_god_eq/MainActivity.kt:19-34 | the old effect is released first; a new effect at priority 1000 on the given session (0 when absent) is enabled; else one at priority 0 on session 0; if both creations fail, the field keeps the old released effect and the reply is an error |
| `AndroidAudio.MainActivity.SetBandLevel` | android/app/src/main/kotlin/com/moran/audio_god_eq/MainActivity.kt:35-47 | replies "OK" exactly when the planned write happens and then changes only that band's level, to the Short-narrowed level; missing arguments, no effect, a released effect or a rejected index give no reply and no change |
| `AndroidAudio.MainActivity.Handle` | android/app/src/main/kotlin/com/moran/audio_god_eq/MainActivity.kt:18-68 | dispatches `activarEQ`, `setBandLevel` and `getDeviceName`; `activarEQ` gives the reply, the released old effect and the new effect exactly as `ActivarEq` does, with the session from the `sessionId` argument; `setBandLevel` gives the reply and the new band levels exactly as `SetBandLevel` does; any other method replies NotImplemented; only the first two touch the equalizer |
| `IosAudio.GainDb` | ios/Runner/AppDelegate.swift:31 | slider 0, 0.5 and 1 give -12, 0 and +12 dB; the slider is in [0, 1] exactly when the gain is in [-12, 12]; `SliderPosition` inverts it |
| `IosAudio.GainDbBijective` | ios/Runner/AppDelegate.swift:31 | each decibel value comes from exactly one slider position |
| `IosAudio.GainDbLinear` | ios/Runner/AppDelegate.swift:31 | the map is linear with slope 24 and strictly increasing |
| `IosAudio.RouteName` | ios/Runner/AppDelegate.swift:38-48 | "Speaker" for an empty route; for the first output, "Wired Headphones" for headphones or headset mic, "USB DAC" for USB audio, and the port's own name for every other port, Bluetooth included |
| `IosAudio.RouteNameIgnoresLaterOutputs` | ios/Runner/AppDelegate.swift:40 | outputs after the first never change the name |
| `IosAudio.PlayReply` | ios/Runner/AppDelegate.swift:70-78 | "PLAYING" if and only if the session activates and the file opens; otherwise an error |
| `IosAudio.AppDelegate.constructor` | ios/Runner/AppDelegate.swift:7-10 | a five-band EQ node in the framework's initial state, an idle player with nothing scheduled, and no file loaded |
| `IosAudio.AppDelegate.SetupEqualizer` | ios/Runner/AppDelegate.swift:57-66 | afterwards each of the 5 bands is parametric at 60, 250, 1000, 4000 and 16000 Hz in order, with bandwidth 1.0, gain 0 and no bypass |
| `IosAudio.AppDelegate.UpdateEq` | ios/Runner/AppDelegate.swift:31-33 | replies "OK" always; sets only band `index`, to `GainDb` of the slider, and only when the node has that band |
| `IosAudio.AppDelegate.PauseNative` | ios/Runner/AppDelegate.swift:35-36 | flips the playing state, keeps the schedule, and replies with the new state |
| `IosAudio.AppDelegate.PauseNativeTwice` | ios/Runner/AppDelegate.swift:35-36 | two toggles restore the playing state and reply with the two states in turn |
| `IosAudio.AppDelegate.PlayAudio` | ios/Runner/AppDelegate.swift:68-79 | on success the file is loaded, the player holds only that file and plays; on a session or open failure the loaded file and the player are unchanged and the reply is an error |
| `IosAudio.AppDelegate.Handle` | ios/Runner/AppDelegate.swift:25-51 | dispatches the five methods; `playNativeIOS` with a path gives `PlayAudio`'s reply and state: the file loaded and playing alone on success, the loaded file and player untouched on failure; a missing or mistyped argument returns with no reply and no change; `getDeviceName` and `activarEQ` change nothing; any other method replies NotImplemented |

## Left out

- Channel set-up, plugin registration and the `super` calls: transport, not decisions.
- Audio-graph wiring and engine start on iOS: operating-system calls. The audio
  session's category and activation are modelled only as a step that may fail.
- Signal processing, and what the `Equalizer` and `AVAudioUnitEQ` effects do
  with their settings: framework code. Product names and port names are opaque strings.
- `AndroidAudio.TargetBand`: computed over exact rationals instead of `Float` and
  `Double` arithmetic. The `toShort()` narrowing of the target band is omitted.
  It only matters when `band * numBands / 5` leaves the Short range.
- `IosAudio.GainDb`: computed over reals. The `Float` rounding of the result is not modelled.
- `IosAudio.AppDelegate.UpdateEq`: a negative `index` traps at runtime. It is excluded
  by a precondition instead of being modelled as a crash.
- `AndroidAudio.MainActivity.Handle`: assumes `sessionId`, `band` and `level`, when
  present, are integers. A value of another type throws a `ClassCastException`,
  which is not modelled.
- `IosAudio.AppDelegate.Handle`: an argument counts as an `Int` or a `Double` only if
  it was sent as that type. Swift's `NSNumber` bridging between the two is not modelled.
- `AndroidAudio.MainActivity.ActivarEq`: enabling a freshly created effect is treated
  as never throwing. Only the constructor `Equalizer(priority, session)` may fail.
  The error text from `e2.message` is not carried in the reply.
- `IosAudio.AppDelegate.PlayAudio`: the error reply carries only the code "ERR".
  The message from `error.localizedDescription` is not carried.
- `AndroidAudio.MainActivity.SetBandLevel`: the effect stores any Short level as given.
  The device's own level-range check is not modelled.
- Failures of `playerNode.play()` or `scheduleFile` when the engine is not running:
  these raise Objective-C exceptions, not Swift errors, and the handler does not catch them.
- Concurrency: both handlers run on the platform's main thread one call at a time,
  and the model treats each call as atomic.
