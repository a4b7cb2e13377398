/** How the worker thread reads one kernel uevent: a buffer of NUL-separated records. */
module Uevent {
  import opened Wrappers
  import Text

  const UEVENT_MSG_LEN := 2048
  const NUL: char := '\0'

  // ---------- one record ----------

  datatype Action = PartnerAdded | TypecChange | CheckAutoSuspend(device: string) | Ignored

  /** What `.` matches in an ECMAScript regular expression. */
  predicate NoLineBreak(s: string) { '\n' !in s && '\r' !in s }

  predicate IsDigit(c: char) { '0' <= c <= '9' }

  /** (add)(.*)(-partner) */
  predicate IsPartnerAdded(r: string) {
    |r| >= 11 && r[..3] == "add" && r[|r| - 8..] == "-partner" && NoLineBreak(r[3..|r| - 8])
  }

  predicate IsTypec(r: string) { "DEVTYPE=typec_" <= r }

  const USB_BUS := "/devices/soc/a800000.ssusb/a800000.dwc3/xhci-hcd.0.auto/usb"

  /** add@(USB_BUS\d/\d-\d)/.*  with the part in parentheses as the device path */
  function AutoSuspendDevice(r: string): Option<string> {
    var n := 4 + |USB_BUS|;
    if |r| >= n + 6 && r[..4] == "add@" && r[4..n] == USB_BUS
       && IsDigit(r[n]) && r[n + 1] == '/' && IsDigit(r[n + 2]) && r[n + 3] == '-'
       && IsDigit(r[n + 4]) && r[n + 5] == '/'
       && NoLineBreak(r[n + 6..])
    then Some("/sys" + r[4..n + 5]) else None
  }

  function Classify(r: string): Action {
    if IsPartnerAdded(r) then PartnerAdded
    else if IsTypec(r) then TypecChange
    else match AutoSuspendDevice(r)
         case Some(device) => CheckAutoSuspend(device)
         case None => Ignored
  }

  lemma PartnerPattern(r: string)
    ensures IsPartnerAdded(r) <==> exists any :: r == "add" + any + "-partner" && NoLineBreak(any)
  {
    if IsPartnerAdded(r) {
      assert r == "add" + r[3..|r| - 8] + "-partner";
    }
    if any :| r == "add" + any + "-partner" && NoLineBreak(any) {
      assert r[3..|r| - 8] == any;
    }
  }

  predicate AutoSuspendRecord(r: string, device: string, a: char, b: char, c: char, any: string) {
    && IsDigit(a) && IsDigit(b) && IsDigit(c) && NoLineBreak(any)
    && device == USB_BUS + [a, '/', b, '-', c] && r == "add@" + device + "/" + any
  }

  lemma AutoSuspendMatches(r: string)
    requires AutoSuspendDevice(r).Some?
    ensures var n := 4 + |USB_BUS|;
            AutoSuspendRecord(r, AutoSuspendDevice(r).value[4..], r[n], r[n + 2], r[n + 4], r[n + 6..])
  {
    var n := 4 + |USB_BUS|;
    AfterSys(r[4..n + 5]);
    DeviceSlices(r, USB_BUS);
  }

  lemma AfterSys(device: string)
    ensures ("/sys" + device)[4..] == device
  {
  }

  lemma DeviceSlices(r: string, bus: string)
    requires |r| >= |bus| + 10 && r[..4] == "add@" && r[4..4 + |bus|] == bus
    requires var n := 4 + |bus|; r[n + 1] == '/' && r[n + 3] == '-' && r[n + 5] == '/'
    ensures var n := 4 + |bus|;
            && r[4..n + 5] == bus + [r[n], '/', r[n + 2], '-', r[n + 4]]
            && r == "add@" + r[4..n + 5] + "/" + r[n + 6..]
  {
  }

  lemma AutoSuspendPattern(r: string, device: string)
    ensures AutoSuspendDevice(r) == Some("/sys" + device) <==>
            exists a, b, c, any :: AutoSuspendRecord(r, device, a, b, c, any)
  {
    hide AutoSuspendRecord;
    if AutoSuspendDevice(r) == Some("/sys" + device) {
      AutoSuspendMatches(r);
      AfterSys(device);
    }
    if a, b, c, any :| AutoSuspendRecord(r, device, a, b, c, any) {
      AutoSuspendFound(r, device, a, b, c, any);
    }
  }

  lemma AutoSuspendFound(r: string, device: string, a: char, b: char, c: char, any: string)
    requires AutoSuspendRecord(r, device, a, b, c, any)
    ensures AutoSuspendDevice(r) == Some("/sys" + device)
  {
    var n := 4 + |USB_BUS|;
    assert r[..4] == "add@" && r[4..n + 5] == device && r[4..n] == USB_BUS && r[n + 6..] == any;
    assert r[n] == device[|USB_BUS|] && r[n + 1] == device[|USB_BUS| + 1] && r[n + 2] == device[|USB_BUS| + 2];
    assert r[n + 3] == device[|USB_BUS| + 3] && r[n + 4] == device[|USB_BUS| + 4];
  }

  // ---------- what a record means ----------

  /** A partner has been added. */
  ghost predicate IsPartnerText(r: string) {
    exists any :: r == "add" + any + "-partner" && '\n' !in any && '\r' !in any
  }

  /** Something about a Type-C port has changed. */
  ghost predicate IsTypecText(r: string) { exists rest :: r == "DEVTYPE=typec_" + rest }

  /** The USB device `d` has been added. */
  ghost predicate IsDeviceText(r: string, d: string) {
    exists a, b, c, any :: DeviceParts(r, d, a, b, c, any)
  }

  predicate DeviceParts(r: string, d: string, a: char, b: char, c: char, any: string) {
    && '0' <= a <= '9' && '0' <= b <= '9' && '0' <= c <= '9' && '\n' !in any && '\r' !in any
    && d == "/devices/soc/a800000.ssusb/a800000.dwc3/xhci-hcd.0.auto/usb" + [a, '/', b, '-', c]
    && r == "add@" + d + "/" + any
  }

  /** The action that a record calls for. */
  ghost predicate CallsFor(r: string, action: Action) {
    match action
    case PartnerAdded => IsPartnerText(r)
    case TypecChange => !IsPartnerText(r) && IsTypecText(r)
    case CheckAutoSuspend(device) =>
      !IsPartnerText(r) && !IsTypecText(r) && exists d :: device == "/sys" + d && IsDeviceText(r, d)
    case Ignored => !IsPartnerText(r) && !IsTypecText(r) && forall d :: !IsDeviceText(r, d)
  }

  lemma TypecPattern(r: string)
    ensures IsTypec(r) <==> IsTypecText(r)
  {
    var p := "DEVTYPE=typec_";
    if IsTypec(r) {
      assert r == p + r[|p|..];
    }
  }

  lemma PartsAreRecord(r: string, d: string, a: char, b: char, c: char, any: string)
    ensures DeviceParts(r, d, a, b, c, any) <==> AutoSuspendRecord(r, d, a, b, c, any)
  {
  }

  lemma DevicePattern(r: string, d: string)
    ensures AutoSuspendDevice(r) == Some("/sys" + d) <==> IsDeviceText(r, d)
  {
    hide AutoSuspendDevice, AutoSuspendRecord, DeviceParts;
    AutoSuspendPattern(r, d);
    forall a, b, c, any ensures DeviceParts(r, d, a, b, c, any) <==> AutoSuspendRecord(r, d, a, b, c, any) {
      PartsAreRecord(r, d, a, b, c, any);
    }
  }

  lemma DeviceUnderSys(r: string)
    requires AutoSuspendDevice(r).Some?
    ensures exists d :: AutoSuspendDevice(r) == Some("/sys" + d)
  {
    var n := 4 + |USB_BUS|;
    var d := r[4..n + 5];
    assert AutoSuspendDevice(r) == Some("/sys" + d);
  }

  /** Each record gets the action it calls for, and no other action is called for. */
  lemma ClassifyIsExact(r: string, action: Action)
    ensures CallsFor(r, action) <==> action == Classify(r)
  {
    hide AutoSuspendDevice, IsPartnerAdded, IsTypec, IsTypecText, IsDeviceText;
    PartnerPattern(r);
    TypecPattern(r);
    forall d ensures AutoSuspendDevice(r) == Some("/sys" + d) <==> IsDeviceText(r, d) { DevicePattern(r, d); }
    if AutoSuspendDevice(r).Some? { DeviceUnderSys(r); }
  }

  // ---------- all records ----------

  /** The records in order, up to the first empty one and no further than the first typec one. */
  function Handle(records: seq<string>): seq<Action> {
    if records == [] || records[0] == "" then []
    else if Classify(records[0]) == TypecChange then [TypecChange]
    else [Classify(records[0])] + Handle(records[1..])
  }

  lemma {:induction false} HandleInOrder(records: seq<string>)
    ensures var h := Handle(records);
            && |h| <= |records|
            && (forall k :: 0 <= k < |h| ==> records[k] != "" && h[k] == Classify(records[k]))
            && (forall k :: 0 <= k < |h| - 1 ==> h[k] != TypecChange)
            && (|h| < |records| ==> records[|h|] == "" || (h != [] && h[|h| - 1] == TypecChange))
  {
    if records != [] && records[0] != "" && Classify(records[0]) != TypecChange {
      var rest := records[1..];
      HandleInOrder(rest);
      assert forall k :: 0 <= k < |rest| ==> rest[k] == records[k + 1];
    }
  }

  /** Every handled record gets the action it calls for. */
  lemma HandledAsCalled(records: seq<string>)
    ensures |Handle(records)| <= |records|
    ensures forall k :: 0 <= k < |Handle(records)| ==> CallsFor(records[k], Handle(records)[k])
  {
    hide Classify, CallsFor;
    HandleInOrder(records);
    forall k | 0 <= k < |Handle(records)| ensures CallsFor(records[k], Handle(records)[k]) {
      ClassifyIsExact(records[k], Handle(records)[k]);
    }
  }

  // ---------- the buffer walk ----------

  /** The records from position `cp` on; past the end there are none. */
  function RecordsFrom(data: string, cp: nat): seq<string> {
    if cp <= |data| then Text.SplitOn(data[cp..], NUL) else []
  }

  lemma NextRecord(data: string, cp: nat)
    requires cp <= |data|
    ensures var r := Text.Before(data[cp..], NUL);
            RecordsFrom(data, cp) == [r] + RecordsFrom(data, cp + |r| + 1)
  {
    var t := data[cp..];
    var r := Text.Before(t, NUL);
    if |r| < |t| {
      assert t == r + [NUL] + t[|r| + 1..];
      Text.SplitAtSeparator(r, t[|r| + 1..], NUL);
      assert data[cp + |r| + 1..] == t[|r| + 1..];
    } else {
      assert t == r;
      Text.SplitFree(r, NUL);
    }
  }

  lemma HandleFirst(r: string, rest: seq<string>)
    requires r != ""
    ensures Handle([r] + rest) == [Classify(r)] + if Classify(r) == TypecChange then [] else Handle(rest)
  {
    assert ([r] + rest)[1..] == rest;
  }

  /** uevent_event, after uevent_kernel_multicast_recv has put `n` bytes into msg. */
  method UeventEvent(msg: array<char>, n: int) returns (actions: seq<Action>)
    requires msg.Length == 2050 && n <= 2048
    modifies msg
    ensures n <= 0 || n >= 2048 ==> actions == []
    ensures 0 < n < 2048 ==>
              var records := Text.SplitOn(old(msg[..n]), NUL);
              && actions == Handle(records)
              && |actions| <= |records| && forall k :: 0 <= k < |actions| ==> CallsFor(records[k], actions[k])
  {
    hide Classify, Text.SplitOn, Handle, RecordsFrom, CallsFor;
    actions := [];
    if n <= 0 { return; }
    if n >= UEVENT_MSG_LEN { return; }               // overflow -- discard
    ghost var data := msg[..n];
    HandledAsCalled(Text.SplitOn(data, NUL));
    msg[n] := NUL;
    msg[n + 1] := NUL;
    var cp := 0;
    AllRecords(data);
    while msg[cp] != NUL
      invariant 0 <= cp <= n + 1
      invariant msg[..n] == data && msg[n] == msg[n + 1] == NUL
      invariant actions + Handle(RecordsFrom(data, cp)) == Handle(Text.SplitOn(data, NUL))
      decreases n + 1 - cp
    {
      assert msg[cp..n] == data[cp..];
      var record := CString(msg, cp, n);
      NextRecord(data, cp);
      HandleFirst(record, RecordsFrom(data, cp + |record| + 1));
      var action := Classify(record);
      actions := actions + [action];
      if action == TypecChange { return; }
      cp := AfterNul(msg, cp, n);
    }
    assert cp < n ==> data[cp] == msg[cp];
    EmptyStops(data, cp);
  }

  lemma AllRecords(data: string)
    ensures RecordsFrom(data, 0) == Text.SplitOn(data, NUL)
  {
    assert data[0..] == data;
  }

  lemma EmptyStops(data: string, cp: nat)
    requires cp < |data| ==> data[cp] == NUL
    ensures Handle(RecordsFrom(data, cp)) == []
  {
    if cp <= |data| { NextRecord(data, cp); }
  }

  /** The C string at `cp`, which the regular expressions are matched against. */
  method CString(msg: array<char>, cp: nat, n: nat) returns (s: string)
    requires cp <= n < msg.Length && msg[n] == NUL
    ensures s == Text.Before(msg[cp..n], NUL)
    ensures msg[cp] != NUL ==> s != ""
  {
    var end := cp;
    while msg[end] != NUL
      invariant cp <= end <= n
      invariant NUL !in msg[cp..end]
      decreases n - end
    {
      end := end + 1;
    }
    s := msg[cp..end];
    BeforeIs(msg[cp..n], s);
  }

  /** while (*cp++) {} */
  method AfterNul(msg: array<char>, cp: nat, n: nat) returns (next: nat)
    requires cp <= n < msg.Length && msg[n] == NUL
    ensures next == cp + |Text.Before(msg[cp..n], NUL)| + 1 <= n + 1
  {
    next := cp;
    while msg[next] != NUL
      invariant cp <= next <= n
      invariant NUL !in msg[cp..next]
      decreases n - next
    {
      next := next + 1;
    }
    BeforeIs(msg[cp..n], msg[cp..next]);
    next := next + 1;
  }

  lemma {:induction false} BeforeIs(t: string, s: string)
    requires s <= t && NUL !in s && (|s| < |t| ==> t[|s|] == NUL)
    ensures Text.Before(t, NUL) == s
  {
    if s != "" {
      assert s[0] in s;
      BeforeIs(t[1..], s[1..]);
    }
  }
}
