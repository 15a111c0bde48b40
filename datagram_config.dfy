/** The write-buffer and write-spin settings of an NIO datagram channel's
    configuration: two watermarks that bound the pending-write buffer and
    the number of write attempts per flush. The setters reject what would
    break the configuration; the bulk `setOptions` repairs watermarks left
    out of order. Option values arrive already converted to `int`. */
module DatagramConfig {
  import opened Common

  /** The three fields, as a value. */
  datatype Settings = Settings(writeBufferHighWaterMark: Int32, writeBufferLowWaterMark: Int32, writeSpinCount: Int32)

  const DefaultSettings: Settings := Settings(64 * 1024, 32 * 1024, 16)

  /** The exceptions the setters throw (IllegalArgumentException). */
  datatype ConfigError =
    | HighBelowLow(high: Int32, low: Int32)
    | NegativeHighWaterMark(high: Int32)
    | LowAboveHigh(low: Int32, high: Int32)
    | NegativeLowWaterMark(low: Int32)
    | NonPositiveSpinCount(spinCount: Int32)

  const HIGH_KEY: string := "writeBufferHighWaterMark"
  const LOW_KEY: string := "writeBufferLowWaterMark"
  const SPIN_KEY: string := "writeSpinCount"

  /** What every setter keeps: neither watermark negative, a positive spin count. */
  predicate Valid(s: Settings) {
    s.writeBufferHighWaterMark >= 0 && s.writeBufferLowWaterMark >= 0 && s.writeSpinCount > 0
  }

  /** The low watermark does not exceed the high one. */
  predicate Ordered(s: Settings) {
    s.writeBufferLowWaterMark <= s.writeBufferHighWaterMark
  }

  /** Java's `x >>> 1` on an `int`: the bits of `x` read as unsigned, halved. */
  function UnsignedShiftRightOne(x: Int32): (r: Int32)
    ensures 0 <= r
    ensures 0 <= x ==> r == x / 2 && r <= x
    ensures x < 0 ==> r == (x + 0x1_0000_0000) / 2
  {
    var bits: int := if x >= 0 then x as int else x as int + 0x1_0000_0000;
    bits / 2
  }

  // ---------------------------------------------------------------------
  // The setters as transitions of the settings
  // ---------------------------------------------------------------------

  /** `setWriteBufferHighWaterMark0`: only a negative value is rejected. */
  function WithHighWaterMark0(s: Settings, v: Int32): (r: Result<Settings, ConfigError>)
    ensures r.Failure? <==> v < 0
    ensures r.Failure? ==> r.error == NegativeHighWaterMark(v)
    ensures r.Success? ==> r.value == s.(writeBufferHighWaterMark := v)
    ensures r.Success? && Valid(s) ==> Valid(r.value)
  {
    if v < 0 then Failure(NegativeHighWaterMark(v)) else Success(s.(writeBufferHighWaterMark := v))
  }

  /** `setWriteBufferHighWaterMark`: also rejects a value below the low
      watermark, so that the order is kept. */
  function WithHighWaterMark(s: Settings, v: Int32): (r: Result<Settings, ConfigError>)
    ensures r.Failure? <==> v < s.writeBufferLowWaterMark || v < 0
    ensures v < s.writeBufferLowWaterMark ==> r == Failure(HighBelowLow(v, s.writeBufferLowWaterMark))
    ensures r.Success? ==> r.value == s.(writeBufferHighWaterMark := v)
    ensures r.Success? ==> Ordered(r.value)
    ensures r.Success? && Valid(s) ==> Valid(r.value)
  {
    if v < s.writeBufferLowWaterMark then Failure(HighBelowLow(v, s.writeBufferLowWaterMark))
    else WithHighWaterMark0(s, v)
  }

  /** `setWriteBufferLowWaterMark0`: only a negative value is rejected. */
  function WithLowWaterMark0(s: Settings, v: Int32): (r: Result<Settings, ConfigError>)
    ensures r.Failure? <==> v < 0
    ensures r.Failure? ==> r.error == NegativeLowWaterMark(v)
    ensures r.Success? ==> r.value == s.(writeBufferLowWaterMark := v)
    ensures r.Success? && Valid(s) ==> Valid(r.value)
  {
    if v < 0 then Failure(NegativeLowWaterMark(v)) else Success(s.(writeBufferLowWaterMark := v))
  }

  /** `setWriteBufferLowWaterMark`: also rejects a value above the high
      watermark, so that the order is kept. */
  function WithLowWaterMark(s: Settings, v: Int32): (r: Result<Settings, ConfigError>)
    ensures r.Failure? <==> v > s.writeBufferHighWaterMark || v < 0
    ensures v > s.writeBufferHighWaterMark ==> r == Failure(LowAboveHigh(v, s.writeBufferHighWaterMark))
    ensures r.Success? ==> r.value == s.(writeBufferLowWaterMark := v)
    ensures r.Success? ==> Ordered(r.value)
    ensures r.Success? && Valid(s) ==> Valid(r.value)
  {
    if v > s.writeBufferHighWaterMark then Failure(LowAboveHigh(v, s.writeBufferHighWaterMark))
    else WithLowWaterMark0(s, v)
  }

  /** `setWriteSpinCount`: a spin count must be positive. */
  function WithWriteSpinCount(s: Settings, v: Int32): (r: Result<Settings, ConfigError>)
    ensures r.Failure? <==> v <= 0
    ensures r.Failure? ==> r.error == NonPositiveSpinCount(v)
    ensures r.Success? ==> r.value == s.(writeSpinCount := v)
    ensures r.Success? && Valid(s) ==> Valid(r.value)
    ensures r.Success? && Ordered(s) ==> Ordered(r.value)
  {
    if v <= 0 then Failure(NonPositiveSpinCount(v)) else Success(s.(writeSpinCount := v))
  }

  /** `setOption`: whether `key` names one of the three settings, with the
      settings after setting it. The watermarks go through the unchecked
      setters, so one option may leave them out of order. Keys the
      superclass handles are not part of this model; they read as
      unrecognised here. */
  function WithOption(s: Settings, key: string, value: Int32): (r: Result<(bool, Settings), ConfigError>)
    ensures key == HIGH_KEY ==> (r.Failure? <==> value < 0) && (r.Success? ==> r.value == (true, s.(writeBufferHighWaterMark := value)))
    ensures key == LOW_KEY ==> (r.Failure? <==> value < 0) && (r.Success? ==> r.value == (true, s.(writeBufferLowWaterMark := value)))
    ensures key == SPIN_KEY ==> (r.Failure? <==> value <= 0) && (r.Success? ==> r.value == (true, s.(writeSpinCount := value)))
    ensures key !in {HIGH_KEY, LOW_KEY, SPIN_KEY} ==> r == Success((false, s))
    ensures r.Success? && Valid(s) ==> Valid(r.value.1)
  {
    if key == HIGH_KEY then
      match WithHighWaterMark0(s, value)
      case Success(t) => Success((true, t))
      case Failure(e) => Failure(e)
    else if key == LOW_KEY then
      match WithLowWaterMark0(s, value)
      case Success(t) => Success((true, t))
      case Failure(e) => Failure(e)
    else if key == SPIN_KEY then
      match WithWriteSpinCount(s, value)
      case Success(t) => Success((true, t))
      case Failure(e) => Failure(e)
    else Success((false, s))
  }

  /** The superclass's `setOptions`: each option in turn, stopping at the
      first that throws. The result holds the settings reached and the
      exception, if one was thrown. */
  function AppliedOptions(s: Settings, options: seq<(string, Int32)>): (r: (Settings, Option<ConfigError>))
    ensures Valid(s) ==> Valid(r.0)
    ensures (forall k :: 0 <= k < |options| ==> options[k].0 !in {HIGH_KEY, LOW_KEY, SPIN_KEY}) ==> r == (s, None)
    decreases |options|
  {
    if options == [] then (s, None)
    else
      match WithOption(s, options[0].0, options[0].1)
      case Failure(e) => (s, Some(e))
      case Success((_, t)) =>
        assert forall k :: 0 <= k < |options| - 1 ==> options[1..][k] == options[k + 1];
        AppliedOptions(t, options[1..])
  }

  /** The repair after a bulk update: watermarks out of order get a low
      watermark of half the high one. */
  function Repaired(s: Settings): (r: Settings)
    ensures r.writeBufferHighWaterMark == s.writeBufferHighWaterMark && r.writeSpinCount == s.writeSpinCount
    ensures Ordered(s) ==> r == s
    ensures !Ordered(s) && s.writeBufferHighWaterMark >= 0 ==> r.writeBufferLowWaterMark == s.writeBufferHighWaterMark / 2
    ensures s.writeBufferHighWaterMark >= 0 ==> Ordered(r)
    ensures Valid(s) ==> Valid(r)
  {
    if s.writeBufferHighWaterMark < s.writeBufferLowWaterMark
    then s.(writeBufferLowWaterMark := UnsignedShiftRightOne(s.writeBufferHighWaterMark))
    else s
  }

  /** `setOptions`: the options, then the repair unless an option threw.
      From valid settings it ends valid, and ordered unless it threw. */
  function WithOptions(s: Settings, options: seq<(string, Int32)>): (r: (Settings, Option<ConfigError>))
    ensures Valid(s) ==> Valid(r.0)
    ensures Valid(s) && r.1.None? ==> Ordered(r.0)
    ensures r.1 == AppliedOptions(s, options).1
  {
    var (t, thrown) := AppliedOptions(s, options);
    if thrown.Some? then (t, thrown) else (Repaired(t), None)
  }

  /** In a bulk update only the end state counts for the order: a high
      watermark set below the current low one is accepted, and the repair
      then lowers the low watermark to half of it. */
  lemma BulkUpdateRepairsOrder(s: Settings, v: Int32)
    requires Valid(s) && 0 <= v < s.writeBufferLowWaterMark
    ensures WithHighWaterMark(s, v).Failure?
    ensures WithOptions(s, [(HIGH_KEY, v)]) ==
      (Settings(v, v / 2, s.writeSpinCount), None)
  {
    assert AppliedOptions(s, [(HIGH_KEY, v)]) == (s.(writeBufferHighWaterMark := v), None) by {
      assert [(HIGH_KEY, v)][1..] == [];
    }
  }

  /** A bulk update that throws after a watermark option skips the
      repair, so the watermarks it leaves can be out of order. */
  lemma ThrowingBulkUpdateSkipsRepair()
    ensures var r := WithOptions(DefaultSettings, [(HIGH_KEY, 10), (SPIN_KEY, 0)]);
      r == (Settings(10, 32768, 16), Some(NonPositiveSpinCount(0))) && !Ordered(r.0)
  {
    var options := [(HIGH_KEY, 10), (SPIN_KEY, 0)];
    var t := DefaultSettings.(writeBufferHighWaterMark := 10);
    assert WithOption(DefaultSettings, HIGH_KEY, 10) == Success((true, t));
    assert WithOption(t, SPIN_KEY, 0) == Failure(NonPositiveSpinCount(0));
    assert options[1..] == [(SPIN_KEY, 0)];
    assert AppliedOptions(t, [(SPIN_KEY, 0)]) == (t, Some(NonPositiveSpinCount(0)));
    assert AppliedOptions(DefaultSettings, options) == (t, Some(NonPositiveSpinCount(0)));
  }

  // ---------------------------------------------------------------------
  // The configuration object
  // ---------------------------------------------------------------------

  class DefaultNioDatagramChannelConfig {
    var writeBufferHighWaterMark: Int32
    var writeBufferLowWaterMark: Int32
    var writeSpinCount: Int32

    function GetWriteBufferHighWaterMark(): (r: Int32)
      reads this
      ensures r == writeBufferHighWaterMark
    {
      writeBufferHighWaterMark
    }

    function GetWriteBufferLowWaterMark(): (r: Int32)
      reads this
      ensures r == writeBufferLowWaterMark
    {
      writeBufferLowWaterMark
    }

    function GetWriteSpinCount(): (r: Int32)
      reads this
      ensures r == writeSpinCount
    {
      writeSpinCount
    }

    /** The settings the three getters report. */
    function Current(): (s: Settings)
      reads this
      ensures s.writeBufferHighWaterMark == writeBufferHighWaterMark
      ensures s.writeBufferLowWaterMark == writeBufferLowWaterMark
      ensures s.writeSpinCount == writeSpinCount
    {
      Settings(GetWriteBufferHighWaterMark(), GetWriteBufferLowWaterMark(), GetWriteSpinCount())
    }

    constructor ()
      ensures Current() == DefaultSettings
      ensures Valid(Current()) && Ordered(Current())
    {
      writeBufferHighWaterMark := 64 * 1024;
      writeBufferLowWaterMark := 32 * 1024;
      writeSpinCount := 16;
    }

    /** The fields carry out `r` from `before`: they hold its settings
        when it succeeds, and `before` when it throws. */
    predicate Performed(before: Settings, r: Result<Settings, ConfigError>, o: Outcome<ConfigError>)
      reads this
    {
      match r
      case Success(t) => o == Pass && Current() == t
      case Failure(e) => o == Fail(e) && Current() == before
    }

    method SetWriteBufferHighWaterMark0(v: Int32) returns (o: Outcome<ConfigError>)
      modifies this
      ensures Performed(old(Current()), WithHighWaterMark0(old(Current()), v), o)
    {
      if v < 0 {
        return Fail(NegativeHighWaterMark(v));
      }
      writeBufferHighWaterMark := v;
      o := Pass;
    }

    method SetWriteBufferHighWaterMark(v: Int32) returns (o: Outcome<ConfigError>)
      modifies this
      ensures Performed(old(Current()), WithHighWaterMark(old(Current()), v), o)
    {
      if v < GetWriteBufferLowWaterMark() {
        return Fail(HighBelowLow(v, GetWriteBufferLowWaterMark()));
      }
      o := SetWriteBufferHighWaterMark0(v);
    }

    method SetWriteBufferLowWaterMark0(v: Int32) returns (o: Outcome<ConfigError>)
      modifies this
      ensures Performed(old(Current()), WithLowWaterMark0(old(Current()), v), o)
    {
      if v < 0 {
        return Fail(NegativeLowWaterMark(v));
      }
      writeBufferLowWaterMark := v;
      o := Pass;
    }

    method SetWriteBufferLowWaterMark(v: Int32) returns (o: Outcome<ConfigError>)
      modifies this
      ensures Performed(old(Current()), WithLowWaterMark(old(Current()), v), o)
    {
      if v > GetWriteBufferHighWaterMark() {
        return Fail(LowAboveHigh(v, GetWriteBufferHighWaterMark()));
      }
      o := SetWriteBufferLowWaterMark0(v);
    }

    method SetWriteSpinCount(v: Int32) returns (o: Outcome<ConfigError>)
      modifies this
      ensures Performed(old(Current()), WithWriteSpinCount(old(Current()), v), o)
    {
      if v <= 0 {
        return Fail(NonPositiveSpinCount(v));
      }
      writeSpinCount := v;
      o := Pass;
    }

    method SetOption(key: string, value: Int32) returns (r: Result<bool, ConfigError>)
      modifies this
      ensures match WithOption(old(Current()), key, value)
        case Success((known, t)) => r == Success(known) && Current() == t
        case Failure(e) => r == Failure(e) && Current() == old(Current())
    {
      var o: Outcome<ConfigError>;
      if key == HIGH_KEY {
        o := SetWriteBufferHighWaterMark0(value);
      } else if key == LOW_KEY {
        o := SetWriteBufferLowWaterMark0(value);
      } else if key == SPIN_KEY {
        o := SetWriteSpinCount(value);
      } else {
        return Success(false);
      }
      r := if o.Pass? then Success(true) else Failure(o.error);
    }

    method SetOptions(options: seq<(string, Int32)>) returns (o: Outcome<ConfigError>)
      modifies this
      ensures var (t, thrown) := WithOptions(old(Current()), options);
        Current() == t && o == (if thrown.Some? then Fail(thrown.value) else Pass)
    {
      var i := 0;
      while i < |options|
        invariant 0 <= i <= |options|
        invariant AppliedOptions(old(Current()), options) == AppliedOptions(Current(), options[i..])
      {
        assert options[i..][1..] == options[i + 1..];
        var r := SetOption(options[i].0, options[i].1);
        if r.Failure? {
          return Fail(r.error);
        }
        i := i + 1;
      }
      if GetWriteBufferHighWaterMark() < GetWriteBufferLowWaterMark() {
        var repair := SetWriteBufferLowWaterMark0(UnsignedShiftRightOne(GetWriteBufferHighWaterMark()));
      }
      o := Pass;
    }
  }
}
