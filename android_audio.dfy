/** The Android method-channel handler of MainActivity: activation of the
    platform equalizer with its fallback chain, the band-index rescale and
    guard of `setBandLevel`, and the output-device name chosen by category
    priority in `getDeviceName`. */
module AndroidAudio {
  import opened Channel

  // ---------------------------------------------------------------------------
  // Output devices and the display-name selector
  // ---------------------------------------------------------------------------

  // The AudioDeviceInfo type constants the selector looks at.
  const TypeWiredHeadset := 3
  const TypeWiredHeadphones := 4
  const TypeBluetoothSco := 7
  const TypeBluetoothA2dp := 8
  const TypeUsbDevice := 11
  const TypeUsbHeadset := 22

  /** Name replied when no USB, Bluetooth or wired device is present. */
  const DefaultDeviceName := "Altavoz"
  /** Name replied when the device query itself throws. */
  const QueryFailedName := "Android Audio"

  datatype OutputDevice = OutputDevice(deviceType: int, productName: string)

  /** The device list the audio service hands back, or the exception it threw. */
  datatype DeviceQuery = Devices(list: seq<OutputDevice>) | QueryFailed

  /** Display-name rank of a device type: USB 3, Bluetooth 2, wired 1, anything else 0. */
  function Category(t: int): (c: nat)
    ensures c <= 3
    ensures c == 0 <==> t !in {TypeUsbHeadset, TypeUsbDevice, TypeBluetoothA2dp,
                                TypeBluetoothSco, TypeWiredHeadset, TypeWiredHeadphones}
  {
    if t == TypeUsbHeadset || t == TypeUsbDevice then 3
    else if t == TypeBluetoothA2dp || t == TypeBluetoothSco then 2
    else if t == TypeWiredHeadset || t == TypeWiredHeadphones then 1
    else 0
  }

  function Rank(d: OutputDevice): nat {
    Category(d.deviceType)
  }

  /** The highest rank present in `ds` (0 when none is ranked). */
  function MaxRank(ds: seq<OutputDevice>): (m: nat)
    ensures m <= 3
    ensures forall j :: 0 <= j < |ds| ==> Rank(ds[j]) <= m
    ensures m == 0 || exists j :: 0 <= j < |ds| && Rank(ds[j]) == m
  {
    if ds == [] then 0
    else
      var init := ds[..|ds| - 1];
      var m0 := MaxRank(init);
      assert forall j :: 0 <= j < |init| ==> init[j] == ds[j];
      if Rank(ds[|ds| - 1]) > m0 then Rank(ds[|ds| - 1]) else m0
  }

  /** Index of the first device of rank `c`, or |ds| when there is none. */
  function FirstOfRank(ds: seq<OutputDevice>, c: nat): (k: nat)
    ensures k <= |ds|
    ensures k < |ds| ==> Rank(ds[k]) == c
    ensures forall j :: 0 <= j < k ==> Rank(ds[j]) != c
  {
    if ds == [] then 0
    else if Rank(ds[0]) == c then 0
    else
      var k' := FirstOfRank(ds[1..], c);
      assert forall j :: 1 <= j < 1 + k' ==> ds[j] == ds[1..][j - 1];
      1 + k'
  }

  /** The name the selector should reply: the product name of the first device
      of the highest rank present, or the default when no device is ranked. */
  function DisplayName(ds: seq<OutputDevice>): (name: string)
    ensures MaxRank(ds) == 0 ==> name == DefaultDeviceName
    ensures MaxRank(ds) > 0 ==>
      exists k :: 0 <= k < |ds| && name == ds[k].productName && Rank(ds[k]) == MaxRank(ds) &&
        forall j :: 0 <= j < k ==> Rank(ds[j]) < MaxRank(ds)
  {
    var m := MaxRank(ds);
    var k := FirstOfRank(ds, m);
    if m == 0 || k == |ds| then DefaultDeviceName else ds[k].productName
  }

  /** The value the selector's `priority` variable holds after scanning `ds`. */
  function PriorityAfter(ds: seq<OutputDevice>): (p: int)
    ensures p == -1 || 1 <= p <= 3
    ensures p == -1 <==> forall j :: 0 <= j < |ds| ==> Rank(ds[j]) == 0
    ensures p >= 1 ==> (exists j :: 0 <= j < |ds| && Rank(ds[j]) == p) &&
                       forall j :: 0 <= j < |ds| ==> Rank(ds[j]) <= p
  {
    if MaxRank(ds) == 0 then -1 else MaxRank(ds)
  }

  /** One more device: it takes over exactly when its rank is strictly higher
      than every rank seen so far; a tie or a lower rank changes nothing. */
  lemma DisplayNameAppend(ds: seq<OutputDevice>, d: OutputDevice)
    ensures MaxRank(ds + [d]) == if Rank(d) > MaxRank(ds) then Rank(d) else MaxRank(ds)
    ensures DisplayName(ds + [d]) == if Rank(d) > MaxRank(ds) then d.productName else DisplayName(ds)
  {
    var e := ds + [d];
    assert e[..|e| - 1] == ds;
    var m := MaxRank(ds);
    if Rank(d) > m {
      assert forall j :: 0 <= j < |ds| ==> e[j] == ds[j];
      assert Rank(e[|ds|]) == Rank(d);
      assert FirstOfRank(e, Rank(d)) == |ds|;
    } else if m > 0 {
      var k0 := FirstOfRank(ds, m);
      var k1 := FirstOfRank(e, m);
      assert k0 < |ds|;
      assert e[k0] == ds[k0];
      assert k1 <= k0;
      assert e[k1] == ds[k1];
      assert k1 == k0;
    }
  }

  /** A later device never changes the reply once a device of the highest rank
      has been seen: the first device of the highest rank wins. */
  lemma DisplayNameIsFirstOfHighestRank(ds: seq<OutputDevice>, k: nat)
    requires k < |ds| && Rank(ds[k]) == MaxRank(ds) && Rank(ds[k]) > 0
    requires forall j :: 0 <= j < k ==> Rank(ds[j]) < Rank(ds[k])
    ensures DisplayName(ds) == ds[k].productName
  {
    var m := MaxRank(ds);
    var f := FirstOfRank(ds, m);
    assert f <= k < |ds|;
    assert Rank(ds[f]) == m;
  }

  /** A device of a type outside the six ranked constants leaves both the name
      and the priority as they were. */
  lemma UnrankedDeviceChangesNothing(ds: seq<OutputDevice>, d: OutputDevice)
    requires Category(d.deviceType) == 0
    ensures DisplayName(ds + [d]) == DisplayName(ds)
    ensures PriorityAfter(ds + [d]) == PriorityAfter(ds)
  {
    DisplayNameAppend(ds, d);
  }

  /** Scanning further never lowers the priority. */
  lemma {:induction false} PriorityNeverDecreases(ds: seq<OutputDevice>, i: nat, j: nat)
    requires i <= j <= |ds|
    ensures PriorityAfter(ds[..i]) <= PriorityAfter(ds[..j])
  {
    if i < j {
      PriorityNeverDecreases(ds, i, j - 1);
      assert ds[..j] == ds[..j - 1] + [ds[j - 1]];
      DisplayNameAppend(ds[..j - 1], ds[j - 1]);
    }
  }

  /** Each step changes the name only together with a strict rise in priority. */
  lemma NameChangesOnlyWithPriority(ds: seq<OutputDevice>, i: nat)
    requires i < |ds|
    ensures DisplayName(ds[..i + 1]) != DisplayName(ds[..i]) ==>
              PriorityAfter(ds[..i + 1]) > PriorityAfter(ds[..i])
  {
    assert ds[..i + 1] == ds[..i] + [ds[i]];
    DisplayNameAppend(ds[..i], ds[i]);
  }

  /** The `getDeviceName` loop: `deviceName` and `priority` are updated device
      by device, each branch firing only when its rank beats `priority`. */
  method SelectDeviceName(devices: seq<OutputDevice>) returns (deviceName: string)
    ensures deviceName == DisplayName(devices)
  {
    deviceName := DefaultDeviceName;
    var priority := -1;
    for i := 0 to |devices|
      invariant deviceName == DisplayName(devices[..i])
      invariant priority == PriorityAfter(devices[..i])
    {
      assert devices[..i + 1] == devices[..i] + [devices[i]];
      DisplayNameAppend(devices[..i], devices[i]);
      var t := devices[i].deviceType;
      if (t == TypeUsbHeadset || t == TypeUsbDevice) && priority < 3 {
        deviceName := devices[i].productName; priority := 3;
      } else if (t == TypeBluetoothA2dp || t == TypeBluetoothSco) && priority < 2 {
        deviceName := devices[i].productName; priority := 2;
      } else if (t == TypeWiredHeadset || t == TypeWiredHeadphones) && priority < 1 {
        deviceName := devices[i].productName; priority := 1;
      }
    }
    assert devices[..|devices|] == devices;
  }

  /** The `getDeviceName` branch: always a success, with the default text when
      the device query throws. */
  method GetDeviceName(query: DeviceQuery) returns (reply: Reply)
    ensures query.QueryFailed? ==> reply == Success(Text(QueryFailedName))
    ensures query.Devices? ==> reply == Success(Text(DisplayName(query.list)))
  {
    match query
    case QueryFailed =>
      reply := Success(Text(QueryFailedName));
    case Devices(list) =>
      var name := SelectDeviceName(list);
      reply := Success(Text(name));
  }

  // ---------------------------------------------------------------------------
  // Band-index rescale and guard
  // ---------------------------------------------------------------------------

  /** Number of bands the caller's index space assumes. */
  const CallerBands := 5

  /** `(band / 5.0 * numBands).toInt()` over exact rationals: the quotient
      band * numBands / 5 truncated toward zero. */
  function TargetBand(band: int, numBands: nat): (t: int)
    ensures band >= 0 ==> 0 <= t && CallerBands * t <= band * numBands < CallerBands * (t + 1)
    ensures band < 0 ==> t <= 0 && CallerBands * (t - 1) < band * numBands <= CallerBands * t
  {
    if band >= 0 then band * numBands / CallerBands
    else -((-band) * numBands / CallerBands)
  }

  /** For a non-negative band the `targetBand < numBands` guard holds exactly
      when the band is one of the caller's five and the device has bands:
      no band in 0..4 is ever clipped, every band from 5 up is. */
  lemma GuardAcceptsExactly(band: int, numBands: nat)
    requires band >= 0
    ensures TargetBand(band, numBands) < numBands <==> band < CallerBands && numBands > 0
  {
    var t := TargetBand(band, numBands);
    if band < CallerBands && numBands > 0 {
      assert band * numBands < CallerBands * numBands by {
        assert (CallerBands - band) * numBands > 0;
      }
    } else if numBands > 0 {
      assert band * numBands >= CallerBands * numBands by {
        assert (band - CallerBands) * numBands >= 0;
      }
    }
  }

  /** The rescale is monotone in the caller's band index. */
  lemma TargetBandMonotone(b1: int, b2: int, numBands: nat)
    requires b1 <= b2
    ensures TargetBand(b1, numBands) <= TargetBand(b2, numBands)
  {
    assert b1 * numBands <= b2 * numBands by {
      assert (b2 - b1) * numBands >= 0;
    }
  }

  /** The guard has no lower bound: every negative band passes it. When the
      product with the band count reaches -5 the target is negative and only
      the effect's own index check rejects it. */
  lemma NegativeBandPassesGuard(band: int, numBands: nat)
    requires band < 0 && numBands > 0
    ensures TargetBand(band, numBands) < numBands
    ensures TargetBand(band, numBands) < 0 <==> band * numBands <= -CallerBands
  {
  }

  /** A negative band whose product with the band count lies above -5
      truncates to band 0, which is written, so the reply is "OK". */
  lemma SmallNegativeBandWritesBandZero(band: int, level: int, numBands: nat)
    requires band < 0 && numBands > 0 && band * numBands > -CallerBands
    ensures PlannedBandWrite(Some(band), Some(level), true, false, numBands) == Some(0)
  {
  }

  /** Kotlin's `Int.toShort()`: keeps the low 16 bits, two's complement. */
  function ToShort(x: int): (s: int)
    ensures -0x8000 <= s < 0x8000
    ensures (x - s) % 0x1_0000 == 0
    ensures -0x8000 <= x < 0x8000 ==> s == x
  {
    (x + 0x8000) % 0x1_0000 - 0x8000
  }

  /** The band `setBandLevel` writes, if any, given the arguments and the state
      of the current effect (`hasEffect`, `released`, its band count). The
      upper bound is the handler's guard; the lower bound is the effect's own
      index check, whose exception the handler swallows. */
  function PlannedBandWrite(band: Option<int>, level: Option<int>, hasEffect: bool,
                            released: bool, numBands: nat): (w: Option<int>)
    ensures w.Some? ==> band.Some? && level.Some? && hasEffect && !released &&
                        w.value == TargetBand(band.value, numBands) && 0 <= w.value < numBands
    ensures w.None? && band.Some? && level.Some? && hasEffect && !released ==>
              TargetBand(band.value, numBands) < 0 || TargetBand(band.value, numBands) >= numBands
  {
    if band.Some? && level.Some? && hasEffect && !released then
      var t := TargetBand(band.value, numBands);
      if 0 <= t < numBands then Some(t) else None
    else None
  }

  /** Every caller band in 0..4 with a level, on a live effect that has bands,
      is written. */
  lemma PlannedBandWriteInRange(band: Option<int>, level: Option<int>, hasEffect: bool,
                                released: bool, numBands: nat)
    ensures band.Some? && 0 <= band.value < CallerBands && level.Some? && hasEffect && !released &&
            numBands > 0 ==>
              PlannedBandWrite(band, level, hasEffect, released, numBands).Some?
  {
    if band.Some? && 0 <= band.value < CallerBands {
      GuardAcceptsExactly(band.value, numBands);
    }
  }

  // ---------------------------------------------------------------------------
  // The platform equalizer effect and the activity holding it
  // ---------------------------------------------------------------------------

  /** The platform `Equalizer` audio effect, as far as the handler uses it. */
  class EqualizerEffect {
    const priority: int
    const audioSession: int
    var enabled: bool
    var released: bool
    /** Band levels in millibels, one per band of the device. */
    var levels: seq<int>

    /** A freshly created effect is initialised and disabled. */
    constructor (priority: int, audioSession: int, levels: seq<int>)
      ensures this.priority == priority && this.audioSession == audioSession
      ensures this.levels == levels && !enabled && !released
    {
      this.priority := priority;
      this.audioSession := audioSession;
      this.levels := levels;
      enabled := false;
      released := false;
    }

    method Release()
      modifies this
      ensures released && enabled == old(enabled) && levels == old(levels)
    {
      released := true;
    }

    method SetEnabled(on: bool)
      requires !released
      modifies this
      ensures enabled == on && !released && levels == old(levels)
    {
      enabled := on;
    }

    /** `numberOfBands`: the count cached when the effect was created, readable
        even after release. */
    method NumberOfBands() returns (n: nat)
      ensures n == |levels|
    {
      n := |levels|;
    }

    /** `setBandLevel`; `ok` is false when it throws: on a released effect or an
        index outside the device's bands. */
    method SetBandLevel(band: int, level: int) returns (ok: bool)
      modifies this
      ensures ok == (!released && 0 <= band < |old(levels)|)
      ensures levels == if ok then old(levels)[band := level] else old(levels)
      ensures enabled == old(enabled) && released == old(released)
    {
      ok := !released && 0 <= band < |levels|;
      if ok {
        levels := levels[band := level];
      }
    }
  }

  /** What the platform does when the handler asks it for something: whether
      each `Equalizer` construction succeeds, the band levels a new effect
      starts with, and the output-device query. */
  datatype AndroidOs = AndroidOs(primaryCreates: bool, fallbackCreates: bool,
                                 bandLevels: seq<int>, devices: DeviceQuery)

  const PrimaryPriority := 1000
  const FallbackPriority := 0
  const FallbackSession := 0
  const FallbackMessage := "EQ Activo (Respaldo)"

  predicate IsDigit(c: char) {
    '0' <= c <= '9'
  }

  /** The number a string of decimal digits denotes, most significant first. */
  function DigitsValue(s: string): nat {
    if s == [] then 0
    else DigitsValue(s[..|s| - 1]) * 10 +
         (if IsDigit(s[|s| - 1]) then (s[|s| - 1] as int - '0' as int) else 0)
  }

  /** The number a decimal string with an optional leading minus denotes. */
  function SignedDecimalValue(s: string): int {
    if s != [] && s[0] == '-' then -(DigitsValue(s[1..]) as int) else DigitsValue(s)
  }

  /** A numeral as Kotlin writes a non-negative `Int`: nonempty, digits only,
      and no leading zero unless the numeral is "0" itself. */
  predicate CanonicalDigits(s: string) {
    s != [] && (forall i :: 0 <= i < |s| ==> IsDigit(s[i])) && (s[0] == '0' ==> s == "0")
  }

  /** A numeral as Kotlin writes any `Int`: a canonical numeral, preceded by a
      minus when the number is negative (never "-0"). */
  predicate CanonicalDecimal(s: string) {
    s != [] &&
    if s[0] == '-' then CanonicalDigits(s[1..]) && s[1..] != "0" else CanonicalDigits(s)
  }

  /** The decimal digits of `n`, with no leading zero. */
  function DecimalDigits(n: nat): (s: string)
    ensures CanonicalDigits(s)
    ensures DigitsValue(s) == n
  {
    if n < 10 then [(n + '0' as int) as char]
    else
      var init := DecimalDigits(n / 10);
      var s := init + [(n % 10 + '0' as int) as char];
      assert s[..|s| - 1] == init;
      assert s[0] == init[0];
      s
  }

  /** Kotlin's decimal rendering of an `Int` in a string template: a canonical
      numeral, signed exactly when the number is negative, that reads back as
      the number. */
  function DecimalString(n: int): (s: string)
    ensures SignedDecimalValue(s) == n
    ensures s != [] && (s[0] == '-' <==> n < 0)
    ensures CanonicalDigits(if n < 0 then s[1..] else s)
    ensures CanonicalDecimal(s)
  {
    if n < 0 then
      var digits := DecimalDigits(-n);
      assert ("-" + digits)[1..] == digits;
      "-" + digits
    else DecimalDigits(n)
  }

  /** A canonical numeral that does not start with '0' denotes at least 1. */
  lemma {:induction false} LeadingDigitPositive(s: string)
    requires s != [] && (forall i :: 0 <= i < |s| ==> IsDigit(s[i])) && s[0] != '0'
    ensures DigitsValue(s) >= 1
  {
    if |s| > 1 {
      LeadingDigitPositive(s[..|s| - 1]);
    }
  }

  /** Every canonical numeral is the rendering of the number it denotes: two
      canonical numerals with the same value are the same text. */
  lemma {:induction false} DecimalDigitsOfValue(s: string)
    requires CanonicalDigits(s)
    ensures DecimalDigits(DigitsValue(s)) == s
  {
    if |s| > 1 {
      var init := s[..|s| - 1];
      assert init[0] == s[0];
      LeadingDigitPositive(init);
      DecimalDigitsOfValue(init);
      assert s == init + [s[|s| - 1]];
    }
  }

  /** The signed rendering is likewise the only canonical numeral of its value. */
  lemma DecimalStringOfValue(s: string)
    requires CanonicalDecimal(s)
    ensures DecimalString(SignedDecimalValue(s)) == s
  {
    if s[0] == '-' {
      DecimalDigitsOfValue(s[1..]);
      assert s == "-" + s[1..];
    } else {
      DecimalDigitsOfValue(s);
    }
  }

  const ActivePrefix := "EQ Android Activo ID:"

  /** The primary success message: the fixed prefix followed by the session id
      written as Kotlin writes an `Int`. */
  function ActiveMessage(sessionId: int): (m: string)
    ensures |m| > |ActivePrefix| && m[..|ActivePrefix|] == ActivePrefix
    ensures var suffix := m[|ActivePrefix|..];
              (suffix[0] == '-' <==> sessionId < 0) &&
              CanonicalDigits(if sessionId < 0 then suffix[1..] else suffix) &&
              SignedDecimalValue(suffix) == sessionId
  {
    var digits := DecimalString(sessionId);
    assert (ActivePrefix + digits)[|ActivePrefix|..] == digits;
    ActivePrefix + digits
  }

  /** `call.argument<Int>("sessionId") ?: 0`. */
  function SessionOrDefault(sessionArg: Option<int>): int {
    if sessionArg.Some? then sessionArg.value else 0
  }

  /** The reply of `activarEQ`: the primary success message naming the session,
      else the fallback message, else an error. */
  function ActivationReply(sessionId: int, os: AndroidOs): (r: Reply)
    ensures r.Error? <==> !os.primaryCreates && !os.fallbackCreates
    ensures os.primaryCreates ==> r == Success(Text(ActiveMessage(sessionId)))
    ensures !os.primaryCreates && os.fallbackCreates ==> r == Success(Text(FallbackMessage))
  {
    if os.primaryCreates then Success(Text(ActiveMessage(sessionId)))
    else if os.fallbackCreates then Success(Text(FallbackMessage))
    else Error("ERR")
  }

  function IntArgument(call: MethodCall, key: string): Option<int> {
    if call.arguments.Some? && key in call.arguments.value && call.arguments.value[key].IntArg?
    then Some(call.arguments.value[key].i)
    else None
  }

  /** The Dart side passes the three integer arguments as integers; a value of
      another type would make `call.argument<Int>` throw. */
  predicate IntArgumentsWellTyped(call: MethodCall) {
    call.arguments.Some? ==>
      forall key | key in ["sessionId", "band", "level"] && key in call.arguments.value ::
        call.arguments.value[key].IntArg?
  }

  class MainActivity {
    var equalizer: EqualizerEffect?

    constructor ()
      ensures equalizer == null
    {
      equalizer := null;
    }

    /** `activarEQ`: release the current effect, create one at priority 1000 on
        the given session (0 when absent) and enable it; if that creation
        throws, create one at priority 0 on session 0; if that throws too,
        reply with an error and keep the (released) old effect. */
    method ActivarEq(sessionArg: Option<int>, os: AndroidOs) returns (reply: Reply)
      modifies this, equalizer
      ensures reply == ActivationReply(SessionOrDefault(sessionArg), os)
      ensures old(equalizer) != null ==>
                old(equalizer).released && old(equalizer).enabled == old(equalizer.enabled) &&
                old(equalizer).levels == old(equalizer.levels)
      ensures os.primaryCreates ==>
                equalizer != null && fresh(equalizer) && equalizer.priority == PrimaryPriority &&
                equalizer.audioSession == SessionOrDefault(sessionArg)
      ensures !os.primaryCreates && os.fallbackCreates ==>
                equalizer != null && fresh(equalizer) && equalizer.priority == FallbackPriority &&
                equalizer.audioSession == FallbackSession
      ensures os.primaryCreates || os.fallbackCreates ==>
                equalizer != null && equalizer.enabled && !equalizer.released &&
                equalizer.levels == os.bandLevels
      ensures !os.primaryCreates && !os.fallbackCreates ==> equalizer == old(equalizer)
    {
      var sessionId := SessionOrDefault(sessionArg);
      if equalizer != null {
        equalizer.Release();
      }
      if os.primaryCreates {
        var created := new EqualizerEffect(PrimaryPriority, sessionId, os.bandLevels);
        equalizer := created;
        created.SetEnabled(true);
        reply := Success(Text(ActiveMessage(sessionId)));
      } else if os.fallbackCreates {
        var created := new EqualizerEffect(FallbackPriority, FallbackSession, os.bandLevels);
        equalizer := created;
        created.SetEnabled(true);
        reply := Success(Text(FallbackMessage));
      } else {
        reply := Error("ERR");
      }
    }

    /** `setBandLevel`: with both arguments and an effect present, rescale the
        band onto the effect's bands and write the level (narrowed to a Short)
        there, replying "OK"; every other path, including a thrown exception,
        replies nothing and changes nothing. */
    method SetBandLevel(band: Option<int>, level: Option<int>) returns (reply: Reply)
      modifies equalizer
      ensures var w := PlannedBandWrite(band, level, old(equalizer) != null,
                                        old(equalizer) != null && old(equalizer.released),
                                        if old(equalizer) != null then |old(equalizer.levels)| else 0);
        && reply == (if w.Some? then Success(Text("OK")) else NoReply)
        && (equalizer != null ==>
              equalizer.levels == (if w.Some? then old(equalizer.levels)[w.value := ToShort(level.value)]
                                   else old(equalizer.levels)))
      ensures equalizer != null ==>
                equalizer.enabled == old(equalizer.enabled) && equalizer.released == old(equalizer.released)
    {
      reply := NoReply;
      if band.Some? && level.Some? && equalizer != null {
        var numBands := equalizer.NumberOfBands();
        var targetBand := TargetBand(band.value, numBands);
        if targetBand < numBands {
          var written := equalizer.SetBandLevel(targetBand, ToShort(level.value));
          if written {
            reply := Success(Text("OK"));
          }
        }
      }
    }

    /** The channel handler: dispatch on the method name. */
    method Handle(call: MethodCall, os: AndroidOs) returns (reply: Reply)
      requires IntArgumentsWellTyped(call)
      modifies this, equalizer
      ensures call.name == "activarEQ" ==>
                && reply == ActivationReply(SessionOrDefault(IntArgument(call, "sessionId")), os)
                && (old(equalizer) != null ==>
                      old(equalizer).released && old(equalizer).enabled == old(equalizer.enabled) &&
                      old(equalizer).levels == old(equalizer.levels))
                && (os.primaryCreates ==>
                      equalizer != null && fresh(equalizer) && equalizer.priority == PrimaryPriority &&
                      equalizer.audioSession == SessionOrDefault(IntArgument(call, "sessionId")))
                && (!os.primaryCreates && os.fallbackCreates ==>
                      equalizer != null && fresh(equalizer) && equalizer.priority == FallbackPriority &&
                      equalizer.audioSession == FallbackSession)
                && (os.primaryCreates || os.fallbackCreates ==>
                      equalizer != null && equalizer.enabled && !equalizer.released &&
                      equalizer.levels == os.bandLevels)
                && (!os.primaryCreates && !os.fallbackCreates ==> equalizer == old(equalizer))
      ensures call.name == "setBandLevel" ==>
                var w := PlannedBandWrite(IntArgument(call, "band"), IntArgument(call, "level"),
                                          old(equalizer) != null,
                                          old(equalizer) != null && old(equalizer.released),
                                          if old(equalizer) != null then |old(equalizer.levels)| else 0);
                && equalizer == old(equalizer)
                && reply == (if w.Some? then Success(Text("OK")) else NoReply)
                && (equalizer != null ==>
                      equalizer.levels == (if w.Some?
                                           then old(equalizer.levels)[w.value := ToShort(IntArgument(call, "level").value)]
                                           else old(equalizer.levels)) &&
                      equalizer.enabled == old(equalizer.enabled) &&
                      equalizer.released == old(equalizer.released))
      ensures call.name == "getDeviceName" ==>
                reply == Success(Text(if os.devices.QueryFailed? then QueryFailedName
                                      else DisplayName(os.devices.list)))
      ensures call.name !in {"activarEQ", "setBandLevel", "getDeviceName"} ==> reply == NotImplemented
      ensures call.name !in {"activarEQ", "setBandLevel"} ==>
                equalizer == old(equalizer) && (equalizer != null ==> unchanged(equalizer))
    {
      if call.name == "activarEQ" {
        reply := ActivarEq(IntArgument(call, "sessionId"), os);
      } else if call.name == "setBandLevel" {
        reply := SetBandLevel(IntArgument(call, "band"), IntArgument(call, "level"));
      } else if call.name == "getDeviceName" {
        reply := GetDeviceName(os.devices);
      } else {
        reply := NotImplemented;
      }
    }
  }
}
