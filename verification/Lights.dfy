/**
 * The backlight and the notification light: brightness arithmetic, and the low-persistence file that is
 * written only when a request enters or leaves the low-persistence mode.
 */
module Lights {
  import opened Wrappers

  // ---------- Arithmetic ----------

  /** A colour is 0xAARRGGBB; the source shifts and masks. */
  type Color = c: int | 0 <= c < 0x1_0000_0000

  function Red(c: Color): nat { c / 0x1_0000 % 0x100 }
  function Green(c: Color): nat { c / 0x100 % 0x100 }
  function Blue(c: Color): nat { c % 0x100 }

  function RgbToBrightness(c: Color): int { (77 * Red(c) + 150 * Green(c) + 29 * Blue(c)) / 0x100 }

  function Least(a: int, b: int): int { if a <= b then a else b }
  function Greatest(a: int, b: int): int { if a <= b then b else a }

  /** Brightness is an average of the channels: never outside them, hence 0..255, and exact on greys. */
  lemma BrightnessIsAnAverage(c: Color)
    ensures Least(Red(c), Least(Green(c), Blue(c))) <= RgbToBrightness(c)
    ensures RgbToBrightness(c) <= Greatest(Red(c), Greatest(Green(c), Blue(c))) <= 255
  {
    var low := Least(Red(c), Least(Green(c), Blue(c)));
    var high := Greatest(Red(c), Greatest(Green(c), Blue(c)));
    var sum := 77 * Red(c) + 150 * Green(c) + 29 * Blue(c);
    assert 256 * low <= sum <= 256 * high;
  }

  /** The weights: for any colour 0xAARRGGBB the brightness is the weighted sum of the channels in 256ths,
      rounded down. */
  lemma BrightnessWeights(alpha: nat, r: nat, g: nat, b: nat)
    requires alpha < 256 && r < 256 && g < 256 && b < 256
    ensures var c := alpha * 0x100_0000 + r * 0x1_0000 + g * 0x100 + b;
            && 0 <= c < 0x1_0000_0000
            && 256 * RgbToBrightness(c) <= 77 * r + 150 * g + 29 * b < 256 * (RgbToBrightness(c) + 1)
  {
    Channels(alpha, r, g, b);
    WholeParts(77 * r + 150 * g + 29 * b, 256);
  }

  /** Red, green and blue of full strength. */
  lemma PureColours()
    ensures RgbToBrightness(0xff0000) == 76 && RgbToBrightness(0xff00) == 149 && RgbToBrightness(0xff) == 28
  {
  }

  lemma WholeParts(x: nat, d: nat)
    requires d > 0
    ensures d * (x / d) <= x < d * (x / d + 1)
  {
    assert x == d * (x / d) + x % d;
  }

  lemma Channels(alpha: nat, r: nat, g: nat, b: nat)
    requires alpha < 256 && r < 256 && g < 256 && b < 256
    ensures var c := alpha * 0x100_0000 + r * 0x1_0000 + g * 0x100 + b;
            0 <= c < 0x1_0000_0000 && Red(c) == r && Green(c) == g && Blue(c) == b
  {
    var c := alpha * 0x100_0000 + r * 0x1_0000 + g * 0x100 + b;
    HighWord(alpha * 0x100 + r, g * 0x100 + b);
    HighByte(alpha, r);
    HighByte(alpha * 0x1_0000 + r * 0x100 + g, b);
    HighByte(alpha * 0x100 + r, g);
  }

  lemma HighByte(q: nat, m: nat)
    requires m < 0x100
    ensures (q * 0x100 + m) / 0x100 == q && (q * 0x100 + m) % 0x100 == m
  {
  }

  lemma HighWord(q: nat, m: nat)
    requires m < 0x1_0000
    ensures (q * 0x1_0000 + m) / 0x1_0000 == q
  {
  }

  lemma BrightnessIsMonotone(c: Color, d: Color)
    requires Red(c) <= Red(d) && Green(c) <= Green(d) && Blue(c) <= Blue(d)
    ensures RgbToBrightness(c) <= RgbToBrightness(d)
  {
    var x := 77 * Red(c) + 150 * Green(c) + 29 * Blue(c);
    var y := 77 * Red(d) + 150 * Green(d) + 29 * Blue(d);
    assert x <= y;
  }

  /** The scaled level of one notification channel. */
  function Scaled(channel: nat, ratio: nat): nat { channel * ratio / 255 }

  /** Scaling by ratio / 255, rounded down. */
  lemma ScaledIsRounded(channel: nat, ratio: nat)
    ensures 255 * Scaled(channel, ratio) <= channel * ratio < 255 * (Scaled(channel, ratio) + 1)
  {
    WholeParts(channel * ratio, 255);
  }

  /** Scaling keeps order, stays within the ratio, and is full exactly for a full channel. */
  lemma ScaledChannel(low: nat, high: nat, ratio: nat)
    requires low <= high <= 255
    ensures Scaled(low, ratio) <= Scaled(high, ratio) <= ratio
    ensures ratio > 0 ==> (Scaled(high, ratio) == ratio <==> high == 255)
  {
    assert low * ratio <= high * ratio;
    if high < 255 {
      assert high * ratio <= 254 * ratio;
    }
  }

  // ---------- The low-persistence mode ----------

  datatype Mode = User | Sensor | LowPersistence | Other(value: int)

  /** One request: its mode, and whether the write of the persistence file, if there is one, succeeds. */
  datatype Call = Call(mode: Mode, written: bool)

  /** g_last_backlight_mode, the content of the persistence file, and every value sent to that file. */
  datatype Panel = Panel(last: Mode, persistence: bool, sent: seq<bool>)

  const INITIAL := Panel(User, false, [])

  /** The file follows the mode. */
  predicate Agrees(p: Panel) { p.persistence == p.last.LowPersistence? }

  predicate Toggles(last: Mode, mode: Mode) { last.LowPersistence? != mode.LowPersistence? }

  function AfterCall(p: Panel, call: Call): Panel {
    var low := call.mode.LowPersistence?;
    if Toggles(p.last, call.mode)
    then Panel(call.mode, if call.written then low else p.persistence, p.sent + [low])
    else p.(last := call.mode)
  }

  function Run(calls: seq<Call>): Panel {
    if calls == [] then INITIAL else AfterCall(Run(calls[..|calls| - 1]), calls[|calls| - 1])
  }

  /** The backlight device, with the files it writes. */
  class Backlight {
    var lastMode: Mode
    var persistence: bool
    var lcd: Option<int>
    ghost var sent: seq<bool>

    ghost function View(): Panel
      reads this
    {
      Panel(lastMode, persistence, sent)
    }

    constructor ()
      ensures View() == INITIAL && lcd == None
    {
      lastMode, persistence, lcd, sent := User, false, None, [];
    }

    /** set_light_backlight; the flags say whether the two writes succeed. */
    method SetLightBacklight(device: bool, color: Color, call: Call, lcdWritten: bool) returns (failed: bool)
      modifies this
      ensures View() == if device then AfterCall(old(View()), call) else old(View())
      ensures lcd == (if device && lcdWritten && (Toggles(old(lastMode), call.mode) ==> call.written)
                      then Some(RgbToBrightness(color)) else old(lcd))
      ensures !failed <==> device && lcdWritten && (Toggles(old(lastMode), call.mode) ==> call.written)
    {
      failed := false;
      var brightness := RgbToBrightness(color);
      var lpEnabled := call.mode.LowPersistence?;
      if !device {
        return true;
      }
      if (lastMode != call.mode && lpEnabled) || (!lpEnabled && lastMode == LowPersistence) {
        sent := sent + [lpEnabled];
        failed := !call.written;
        if call.written {
          persistence := lpEnabled;
        }
      }
      lastMode := call.mode;
      if !failed {
        failed := !lcdWritten;
        if lcdWritten {
          lcd := Some(brightness);
        }
      }
    }
  }

  /**
   * What is sent over a run alternates on, off, on, ...: one value per change of the mode and nothing else, so
   * the last value sent always states the last requested mode.
   */
  lemma {:induction false} SentAlternates(calls: seq<Call>)
    ensures forall i :: 0 <= i < |Run(calls).sent| ==> (Run(calls).sent[i] <==> i % 2 == 0)
    ensures Run(calls).last.LowPersistence? <==> |Run(calls).sent| % 2 == 1
  {
    if calls != [] {
      SentAlternates(calls[..|calls| - 1]);
    }
  }

  /** How many toggles failed to be written since the last one that was written. */
  function Missed(calls: seq<Call>): nat {
    if calls == [] then 0
    else
      var before, call := calls[..|calls| - 1], calls[|calls| - 1];
      if !Toggles(Run(before).last, call.mode) then Missed(before)
      else if call.written then 0
      else Missed(before) + 1
  }

  /**
   * A failed write is remembered as if it had happened, so it is not repeated: the file follows the mode exactly
   * when an even number of toggles has failed since the last written one.
   */
  lemma {:induction false} PersistenceFollowsMode(calls: seq<Call>)
    ensures Agrees(Run(calls)) <==> Missed(calls) % 2 == 0
  {
    if calls != [] {
      PersistenceFollowsMode(calls[..|calls| - 1]);
    }
  }

  /** With no failed write, the file follows the mode after every run. */
  lemma {:induction false} WrittenRunsAgree(calls: seq<Call>)
    requires forall call :: call in calls ==> call.written
    ensures Missed(calls) == 0 && Agrees(Run(calls))
  {
    if calls != [] {
      assert calls[|calls| - 1] in calls;
      WrittenRunsAgree(calls[..|calls| - 1]);
    }
    PersistenceFollowsMode(calls);
  }
}
