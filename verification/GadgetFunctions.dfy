/**
 What a USB function request means: which ids it writes, which configfs links it makes and
 which FunctionFS endpoints it waits for.

 The bits of the 64-bit function mask are named by a HIDL interface that is not part of this
 model; a mask is the seven named bits and the rest of the word.
 */
module GadgetFunctions {
  import opened Wrappers
  import Text

  datatype Status = SUCCESS | ERROR | CONFIGURATION_NOT_SUPPORTED

  datatype Function = ADB | ACCESSORY | MTP | MIDI | PTP | RNDIS | AUDIO_SOURCE

  datatype Functions = Functions(adb: bool, accessory: bool, mtp: bool, midi: bool, ptp: bool,
                                 rndis: bool, audioSource: bool, others: nat)
  {
    predicate Has(b: Function) {
      match b
      case ADB => adb
      case ACCESSORY => accessory
      case MTP => mtp
      case MIDI => midi
      case PTP => ptp
      case RNDIS => rndis
      case AUDIO_SOURCE => audioSource
    }

    /** The local `ffsEnabled` of setupFunctions. */
    predicate UsesFfs() { mtp || ptp || adb }
  }

  const NONE := Functions(false, false, false, false, false, false, false, 0)

  // ---------- vendor functions ----------

  /** The system properties the service reads. */
  datatype Properties = Properties(buildType: string, bootMode: string, persistConfig: string, vendorConfig: string)

  function VendorFunctions(p: Properties): string {
    if p.buildType == "user" then "user"
    else if p.vendorConfig != "" then p.vendorConfig
    else if p.bootMode == "usbradio" then
      if p.persistConfig != "" then p.persistConfig else "diag"
    else ""
  }

  /** The value SetProperty is asked to publish, if it is called at all. */
  function PublishedVendorConfig(p: Properties): Option<string> {
    if p.buildType != "user" && p.vendorConfig == "" && p.bootMode == "usbradio"
    then Some(VendorFunctions(p)) else None
  }

  function AfterGetVendorFunctions(p: Properties, setPropertyOk: bool): Properties {
    match PublishedVendorConfig(p)
    case Some(v) => if setPropertyOk then p.(vendorConfig := v) else p
    case None => p
  }

  /** Which property decides, and what is published. */
  lemma VendorFunctionsByCase(p: Properties)
    ensures p.buildType == "user" ==> VendorFunctions(p) == "user" && PublishedVendorConfig(p) == None
    ensures p.buildType != "user" && p.vendorConfig != "" ==>
              VendorFunctions(p) == p.vendorConfig && PublishedVendorConfig(p) == None
    ensures p.buildType != "user" && p.vendorConfig == "" && p.bootMode != "usbradio" ==>
              VendorFunctions(p) == "" && PublishedVendorConfig(p) == None
    ensures p.buildType != "user" && p.vendorConfig == "" && p.bootMode == "usbradio" && p.persistConfig != "" ==>
              VendorFunctions(p) == p.persistConfig && PublishedVendorConfig(p) == Some(p.persistConfig)
    ensures p.buildType != "user" && p.vendorConfig == "" && p.bootMode == "usbradio" && p.persistConfig == "" ==>
              VendorFunctions(p) == "diag" && PublishedVendorConfig(p) == Some("diag")
  {
  }

  /** A second call sees what the first call saw, whether or not SetProperty worked, and once the
      property is published no later call publishes again. */
  lemma VendorFunctionsAreStable(p: Properties, setPropertyOk: bool)
    ensures var q := AfterGetVendorFunctions(p, setPropertyOk);
            && VendorFunctions(q) == VendorFunctions(p)
            && (setPropertyOk ==> PublishedVendorConfig(q) == None)
  {
  }

  // ---------- ids ----------

  predicate PlainVendor(v: string) { v == "user" || v == "" }

  const GOOGLE := "0x18d1"
  const QUALCOMM := "0x05C6"

  function IfPlain(v: string, pid: string): Option<(string, string)> {
    if PlainVendor(v) then Some((GOOGLE, pid)) else None
  }

  /** The (idVendor, idProduct) pair of validateAndSetVidPid; None is CONFIGURATION_NOT_SUPPORTED. */
  function VidPid(f: Functions, v: string): Option<(string, string)> {
    if f == NONE.(mtp := true) then
      if v == "diag" then Some((QUALCOMM, "0x901B")) else IfPlain(v, "0x4ee1")
    else if f == NONE.(adb := true, mtp := true) then
      if v == "diag" then Some((QUALCOMM, "0x903A")) else IfPlain(v, "0x4ee2")
    else if f == NONE.(rndis := true) then
      if v == "diag" then Some((QUALCOMM, "0x902C"))
      else if v == "serial_cdev,diag" then Some((QUALCOMM, "0x90B5"))
      else IfPlain(v, "0x4ee3")
    else if f == NONE.(adb := true, rndis := true) then
      if v == "diag" then Some((QUALCOMM, "0x902D"))
      else if v == "serial_cdev,diag" then Some((QUALCOMM, "0x90B6"))
      else IfPlain(v, "0x4ee4")
    else if f == NONE.(ptp := true) then IfPlain(v, "0x4ee5")
    else if f == NONE.(adb := true, ptp := true) then IfPlain(v, "0x4ee6")
    else if f == NONE.(adb := true) then
      if v == "diag" then Some((QUALCOMM, "0x901D"))
      else if v == "diag,serial_cdev,rmnet_gsi" then Some((QUALCOMM, "0x9091"))
      else if v == "diag,serial_cdev" then Some((QUALCOMM, "0x901F"))
      else IfPlain(v, "0x4ee7")
    else if f == NONE.(midi := true) then IfPlain(v, "0x4ee8")
    else if f == NONE.(adb := true, midi := true) then IfPlain(v, "0x4ee9")
    else if f == NONE.(accessory := true) then Some((GOOGLE, "0x2d00"))
    else if f == NONE.(adb := true, accessory := true) then Some((GOOGLE, "0x2d01"))
    else if f == NONE.(audioSource := true) then Some((GOOGLE, "0x2d02"))
    else if f == NONE.(adb := true, audioSource := true) then Some((GOOGLE, "0x2d03"))
    else if f == NONE.(accessory := true, audioSource := true) then Some((GOOGLE, "0x2d04"))
    else if f == NONE.(adb := true, accessory := true, audioSource := true) then Some((GOOGLE, "0x2d05"))
    else None
  }

  /** Some vendor string makes the mask acceptable; the empty one then does too. */
  predicate Supported(f: Functions) { VidPid(f, "").Some? }

  /** A mask can be accepted exactly if it has one interface beside ADB. */
  lemma SupportedExactly(f: Functions)
    ensures Supported(f) <==> OneInterface(f)
  {
    hide OneInterface;
    AcceptedExactly(f, "");
    assert PlainVendor("");
  }

  lemma AcceptedIsSupported(f: Functions, v: string)
    requires VidPid(f, v).Some?
    ensures Supported(f)
    ensures f != NONE && f.others == 0 && !(f.mtp && f.ptp)
  {
  }

  /** At most one interface beside ADB, where the accessory and its audio source count as one. */
  predicate OneInterface(f: Functions) {
    && f != NONE && f.others == 0
    && !(f.mtp && (f.ptp || f.rndis || f.midi)) && !(f.ptp && (f.rndis || f.midi)) && !(f.rndis && f.midi)
    && ((f.accessory || f.audioSource) ==> !f.mtp && !f.ptp && !f.rndis && !f.midi)
  }

  /** The combinations that have ids for a diagnostic vendor string. */
  predicate Diagnostic(f: Functions, v: string) {
    || (v == "diag" && !f.ptp && !f.midi)
    || (v == "serial_cdev,diag" && f.rndis)
    || (v in {"diag,serial_cdev,rmnet_gsi", "diag,serial_cdev"} && f == NONE.(adb := true))
  }

  /** Exactly which masks are accepted under which vendor string, and whose vendor id they get. */
  lemma AcceptedExactly(f: Functions, v: string)
    ensures VidPid(f, v).Some? <==>
              OneInterface(f) && (PlainVendor(v) || f.accessory || f.audioSource || Diagnostic(f, v))
    ensures VidPid(f, v).Some? ==>
              (VidPid(f, v).value.0 == QUALCOMM <==> !PlainVendor(v) && !f.accessory && !f.audioSource)
  {
    assert GOOGLE[2] == '1' && QUALCOMM[2] == '0';
    assert |"diag"| == 4 && |"serial_cdev,diag"| == 16
      && |"diag,serial_cdev,rmnet_gsi"| == 26 && |"diag,serial_cdev"| == 16;
    assert "serial_cdev,diag"[0] == 's' && "diag,serial_cdev"[0] == 'd' && "user"[0] == 'u' && "diag"[0] == 'd';
  }

  /** The ids of the requests with a plain vendor string, and of the accessory and its audio source, whose
      ids do not depend on it. */
  lemma PlainIds(v: string)
    ensures PlainVendor(v) ==>
              && VidPid(NONE.(mtp := true), v) == Some(("0x18d1", "0x4ee1"))
              && VidPid(NONE.(adb := true, mtp := true), v) == Some(("0x18d1", "0x4ee2"))
              && VidPid(NONE.(rndis := true), v) == Some(("0x18d1", "0x4ee3"))
              && VidPid(NONE.(adb := true, rndis := true), v) == Some(("0x18d1", "0x4ee4"))
              && VidPid(NONE.(ptp := true), v) == Some(("0x18d1", "0x4ee5"))
              && VidPid(NONE.(adb := true, ptp := true), v) == Some(("0x18d1", "0x4ee6"))
              && VidPid(NONE.(adb := true), v) == Some(("0x18d1", "0x4ee7"))
              && VidPid(NONE.(midi := true), v) == Some(("0x18d1", "0x4ee8"))
              && VidPid(NONE.(adb := true, midi := true), v) == Some(("0x18d1", "0x4ee9"))
    ensures VidPid(NONE.(accessory := true), v) == Some(("0x18d1", "0x2d00"))
    ensures VidPid(NONE.(adb := true, accessory := true), v) == Some(("0x18d1", "0x2d01"))
    ensures VidPid(NONE.(audioSource := true), v) == Some(("0x18d1", "0x2d02"))
    ensures VidPid(NONE.(adb := true, audioSource := true), v) == Some(("0x18d1", "0x2d03"))
    ensures VidPid(NONE.(accessory := true, audioSource := true), v) == Some(("0x18d1", "0x2d04"))
    ensures VidPid(NONE.(adb := true, accessory := true, audioSource := true), v) == Some(("0x18d1", "0x2d05"))
  {
    assert |"user"| == 4 && |"diag"| == 4 && "user"[0] == 'u' && "diag"[0] == 'd';
    assert |"serial_cdev,diag"| == 16 && |"diag,serial_cdev,rmnet_gsi"| == 26 && |"diag,serial_cdev"| == 16;
  }

  /** The ids of the diagnostic configurations. */
  lemma DiagnosticIds()
    ensures VidPid(NONE.(mtp := true), "diag") == Some(("0x05C6", "0x901B"))
    ensures VidPid(NONE.(adb := true, mtp := true), "diag") == Some(("0x05C6", "0x903A"))
    ensures VidPid(NONE.(rndis := true), "diag") == Some(("0x05C6", "0x902C"))
    ensures VidPid(NONE.(adb := true, rndis := true), "diag") == Some(("0x05C6", "0x902D"))
    ensures VidPid(NONE.(adb := true), "diag") == Some(("0x05C6", "0x901D"))
    ensures VidPid(NONE.(rndis := true), "serial_cdev,diag") == Some(("0x05C6", "0x90B5"))
    ensures VidPid(NONE.(adb := true, rndis := true), "serial_cdev,diag") == Some(("0x05C6", "0x90B6"))
    ensures VidPid(NONE.(adb := true), "diag,serial_cdev,rmnet_gsi") == Some(("0x05C6", "0x9091"))
    ensures VidPid(NONE.(adb := true), "diag,serial_cdev") == Some(("0x05C6", "0x901F"))
  {
    assert |"serial_cdev,diag"| == 16 && |"diag,serial_cdev,rmnet_gsi"| == 26 && |"diag,serial_cdev"| == 16;
    assert "serial_cdev,diag"[0] == 's' && "diag,serial_cdev"[0] == 'd' && |"diag"| == 4;
  }

  /** The functions behind a product id, from its first and its last two hexadecimal digits. */
  function FunctionsOfPid(first: char, fifth: char, last: char): Functions {
    if first == '9' then
      if fifth == '1' && last == 'B' then NONE.(mtp := true)
      else if fifth == '3' then NONE.(adb := true, mtp := true)
      else if last == 'C' || last == '5' then NONE.(rndis := true)
      else if (last == 'D' && fifth == '2') || last == '6' then NONE.(adb := true, rndis := true)
      else NONE.(adb := true)
    else if first == '4' then
      match last
      case '1' => NONE.(mtp := true)
      case '2' => NONE.(adb := true, mtp := true)
      case '3' => NONE.(rndis := true)
      case '4' => NONE.(adb := true, rndis := true)
      case '5' => NONE.(ptp := true)
      case '6' => NONE.(adb := true, ptp := true)
      case '7' => NONE.(adb := true)
      case '8' => NONE.(midi := true)
      case _ => NONE.(adb := true, midi := true)
    else
      NONE.(adb := last in {'1', '3', '5'}, accessory := last in {'0', '1', '4', '5'}, audioSource := last >= '2')
  }

  lemma PidTellsFunctions(f: Functions, v: string)
    requires VidPid(f, v).Some?
    ensures var pid := VidPid(f, v).value.1; |pid| == 6 && f == FunctionsOfPid(pid[2], pid[4], pid[5])
  {
  }

  /** The ids a host sees determine the requested functions. */
  lemma IdsDetermineFunctions(f: Functions, v: string, g: Functions, w: string)
    requires VidPid(f, v).Some? && VidPid(f, v) == VidPid(g, w)
    ensures f == g
  {
    hide VidPid, FunctionsOfPid;
    PidTellsFunctions(f, v);
    PidTellsFunctions(g, w);
  }

  // ---------- the plan ----------

  /** The configfs function a bit of the mask stands for. */
  function Target(b: Function): string {
    match b
    case ADB => "ffs.adb"
    case ACCESSORY => "accessory.gs2"
    case MTP => "ffs.mtp"
    case MIDI => "midi.gs5"
    case PTP => "ffs.ptp"
    case RNDIS => "gsi.rndis"
    case AUDIO_SOURCE => "audio_source.gs3"
  }

  function If(condition: bool, target: string): seq<string> {
    if condition then [target] else []
  }

  /** The vendor function a token of the vendor string stands for, if any. */
  function VendorTarget(token: string): seq<string> {
    If(token == "diag", "diag.diag")
    + If(token == "serial_cdev", "cser.dun.0")
    + If(token == "rmnet_gsi", "gsi.rmnet")
  }

  function VendorTargets(tokens: seq<string>): seq<string> {
    FlatMap(VendorTarget, tokens)
  }

  function FlatMap(f: string -> seq<string>, s: seq<string>): seq<string> {
    if s == [] then [] else f(s[0]) + FlatMap(f, s[1..])
  }

  function Media(f: Functions): seq<string> {
    If(f.mtp, Target(MTP)) + If(!f.mtp && f.ptp, Target(PTP))
  }

  function Plain(f: Functions): seq<string> {
    If(f.midi, Target(MIDI))
    + If(f.accessory, Target(ACCESSORY))
    + If(f.audioSource, Target(AUDIO_SOURCE))
    + If(f.rndis, Target(RNDIS))
  }

  /** The functions of a configuration in the order they are linked. */
  function Plan(f: Functions, vendor: string): seq<string> {
    Media(f) + Plain(f) + VendorTargets(Text.Tokens(vendor, ',')) + If(f.adb, Target(ADB))
  }

  /** The media function comes first, the debug bridge last, and the others stand between in a fixed order. */
  lemma PlanInOrder(f: Functions, vendor: string)
    ensures Plan(f, vendor) ==
            If(f.mtp, "ffs.mtp") + If(f.ptp && !f.mtp, "ffs.ptp") + If(f.midi, "midi.gs5")
            + If(f.accessory, "accessory.gs2") + If(f.audioSource, "audio_source.gs3") + If(f.rndis, "gsi.rndis")
            + VendorTargets(Text.Tokens(vendor, ',')) + If(f.adb, "ffs.adb")
  {
    hide Text.Tokens, VendorTargets, If;
    Regroup(If(f.mtp, "ffs.mtp") + If(!f.mtp && f.ptp, "ffs.ptp"), If(f.midi, "midi.gs5"),
            If(f.accessory, "accessory.gs2"), If(f.audioSource, "audio_source.gs3"), If(f.rndis, "gsi.rndis"));
  }

  lemma Regroup(a: seq<string>, b: seq<string>, c: seq<string>, d: seq<string>, e: seq<string>)
    ensures a + (b + c + d + e) == a + b + c + d + e
  {
  }

  const MTP_ENDPOINTS := ["/dev/usb-ffs/mtp/ep1", "/dev/usb-ffs/mtp/ep2", "/dev/usb-ffs/mtp/ep3"]
  const PTP_ENDPOINTS := ["/dev/usb-ffs/ptp/ep1", "/dev/usb-ffs/ptp/ep2", "/dev/usb-ffs/ptp/ep3"]
  const ADB_ENDPOINTS := ["/dev/usb-ffs/adb/ep1", "/dev/usb-ffs/adb/ep2"]

  function MediaEndpoints(f: Functions): seq<string> {
    if f.mtp then MTP_ENDPOINTS else if f.ptp then PTP_ENDPOINTS else []
  }

  /** The endpoint files that the service waits for. */
  function EndpointsOf(f: Functions): seq<string> {
    MediaEndpoints(f) + if f.adb then ADB_ENDPOINTS else []
  }

  /** The endpoint files by name. */
  lemma EndpointsByName(f: Functions)
    ensures EndpointsOf(f) ==
            (if f.mtp then ["/dev/usb-ffs/mtp/ep1", "/dev/usb-ffs/mtp/ep2", "/dev/usb-ffs/mtp/ep3"]
             else if f.ptp then ["/dev/usb-ffs/ptp/ep1", "/dev/usb-ffs/ptp/ep2", "/dev/usb-ffs/ptp/ep3"] else [])
            + if f.adb then ["/dev/usb-ffs/adb/ep1", "/dev/usb-ffs/adb/ep2"] else []
  {
  }

  lemma EndpointsExist(f: Functions)
    ensures f.UsesFfs() <==> EndpointsOf(f) != []
  {
  }

  // ---------- the plan serves the request ----------

  function Count(plan: seq<string>, target: string): nat {
    if plan == [] then 0 else (if plan[0] == target then 1 else 0) + Count(plan[1..], target)
  }

  lemma {:induction false} CountAppend(a: seq<string>, b: seq<string>, target: string)
    ensures Count(a + b, target) == Count(a, target) + Count(b, target)
  {
    if a == [] {
      assert a + b == b;
    } else {
      assert (a + b)[1..] == a[1..] + b;
      CountAppend(a[1..], b, target);
    }
  }

  lemma CountIf(condition: bool, x: string, target: string)
    ensures Count(If(condition, x), target) == if condition && x == target then 1 else 0
  {
    if condition {
      assert Count([x], target) == (if x == target then 1 else 0) + Count([], target);
    }
  }

  lemma TargetsDiffer(b: Function, c: Function)
    ensures Target(b) == Target(c) <==> b == c
    ensures Target(b) !in {"diag.diag", "cser.dun.0", "gsi.rmnet"}
  {
    var t, u := Target(b), Target(c);
    assert t == u ==> t[|t| - 1] == u[|u| - 1] && t[0] == u[0] && t[4] == u[4];
    assert "diag.diag"[0] == 'd' && "cser.dun.0"[0] == 'c' && "gsi.rmnet"[5] == 'm';
  }

  lemma {:induction false} VendorNeverServesMask(tokens: seq<string>, b: Function)
    ensures Count(VendorTargets(tokens), Target(b)) == 0
  {
    if tokens != [] {
      var t := tokens[0];
      TargetsDiffer(b, b);
      CountIf(t == "diag", "diag.diag", Target(b));
      CountIf(t == "serial_cdev", "cser.dun.0", Target(b));
      CountIf(t == "rmnet_gsi", "gsi.rmnet", Target(b));
      CountAppend(If(t == "diag", "diag.diag"), If(t == "serial_cdev", "cser.dun.0"), Target(b));
      CountAppend(If(t == "diag", "diag.diag") + If(t == "serial_cdev", "cser.dun.0"),
                  If(t == "rmnet_gsi", "gsi.rmnet"), Target(b));
      CountAppend(VendorTarget(t), VendorTargets(tokens[1..]), Target(b));
      VendorNeverServesMask(tokens[1..], b);
    }
  }

  lemma MediaCount(f: Functions, b: Function)
    ensures Count(Media(f), Target(b)) == if (b == MTP && f.mtp) || (b == PTP && f.ptp && !f.mtp) then 1 else 0
  {
    TargetsDiffer(b, MTP);
    TargetsDiffer(b, PTP);
    CountIf(f.mtp, Target(MTP), Target(b));
    CountIf(!f.mtp && f.ptp, Target(PTP), Target(b));
    CountAppend(If(f.mtp, Target(MTP)), If(!f.mtp && f.ptp, Target(PTP)), Target(b));
  }

  lemma PlainCount(f: Functions, b: Function)
    ensures Count(Plain(f), Target(b)) == if f.Has(b) && b in {MIDI, ACCESSORY, AUDIO_SOURCE, RNDIS} then 1 else 0
  {
    var x := Target(b);
    TargetsDiffer(b, MIDI);
    TargetsDiffer(b, ACCESSORY);
    TargetsDiffer(b, AUDIO_SOURCE);
    TargetsDiffer(b, RNDIS);
    CountIf(f.midi, Target(MIDI), x);
    CountIf(f.accessory, Target(ACCESSORY), x);
    CountIf(f.audioSource, Target(AUDIO_SOURCE), x);
    CountIf(f.rndis, Target(RNDIS), x);
    var two := If(f.midi, Target(MIDI)) + If(f.accessory, Target(ACCESSORY));
    CountAppend(If(f.midi, Target(MIDI)), If(f.accessory, Target(ACCESSORY)), x);
    CountAppend(two, If(f.audioSource, Target(AUDIO_SOURCE)), x);
    CountAppend(two + If(f.audioSource, Target(AUDIO_SOURCE)), If(f.rndis, Target(RNDIS)), x);
  }

  /** How often each bit's function is linked: once if requested, never otherwise, except that PTP
      gives way to MTP. */
  lemma PlanCount(f: Functions, vendor: string, b: Function)
    ensures Count(Plan(f, vendor), Target(b)) == if f.Has(b) && !(b == PTP && f.mtp) then 1 else 0
  {
    var vendorTargets := VendorTargets(Text.Tokens(vendor, ','));
    MediaCount(f, b);
    PlainCount(f, b);
    VendorNeverServesMask(Text.Tokens(vendor, ','), b);
    TargetsDiffer(b, ADB);
    CountIf(f.adb, Target(ADB), Target(b));
    CountAppend(Media(f), Plain(f), Target(b));
    CountAppend(Media(f) + Plain(f), vendorTargets, Target(b));
    CountAppend(Media(f) + Plain(f) + vendorTargets, If(f.adb, Target(ADB)), Target(b));
  }

  lemma {:induction false} VendorTargetsCount(tokens: seq<string>)
    ensures Count(VendorTargets(tokens), "diag.diag") == Count(tokens, "diag")
    ensures Count(VendorTargets(tokens), "cser.dun.0") == Count(tokens, "serial_cdev")
    ensures Count(VendorTargets(tokens), "gsi.rmnet") == Count(tokens, "rmnet_gsi")
  {
    if tokens != [] {
      VendorTargetsCount(tokens[1..]);
      VendorTargetCount(tokens[0], "diag.diag");
      VendorTargetCount(tokens[0], "cser.dun.0");
      VendorTargetCount(tokens[0], "gsi.rmnet");
      CountAppend(VendorTarget(tokens[0]), VendorTargets(tokens[1..]), "diag.diag");
      CountAppend(VendorTarget(tokens[0]), VendorTargets(tokens[1..]), "cser.dun.0");
      CountAppend(VendorTarget(tokens[0]), VendorTargets(tokens[1..]), "gsi.rmnet");
    }
  }

  /** The vendor token that asks for a vendor function. */
  function TokenFor(target: string): string
    requires target in {"diag.diag", "cser.dun.0", "gsi.rmnet"}
  {
    if target == "diag.diag" then "diag" else if target == "cser.dun.0" then "serial_cdev" else "rmnet_gsi"
  }

  lemma VendorTargetCount(token: string, target: string)
    requires target in {"diag.diag", "cser.dun.0", "gsi.rmnet"}
    ensures Count(VendorTarget(token), target) == if token == TokenFor(target) then 1 else 0
  {
    assert "diag.diag"[0] == 'd' && "cser.dun.0"[0] == 'c' && "gsi.rmnet"[0] == 'g';
    assert "diag"[0] == 'd' && "serial_cdev"[0] == 's' && "rmnet_gsi"[0] == 'r';
    var diag, serial, rmnet := If(token == "diag", "diag.diag"), If(token == "serial_cdev", "cser.dun.0"),
        If(token == "rmnet_gsi", "gsi.rmnet");
    CountIf(token == "diag", "diag.diag", target);
    CountIf(token == "serial_cdev", "cser.dun.0", target);
    CountIf(token == "rmnet_gsi", "gsi.rmnet", target);
    CountAppend(diag, serial, target);
    CountAppend(diag + serial, rmnet, target);
  }

  lemma {:induction false} CountAbsent(plan: seq<string>, target: string)
    requires forall i :: 0 <= i < |plan| ==> plan[i] != target
    ensures Count(plan, target) == 0
  {
    if plan != [] { CountAbsent(plan[1..], target); }
  }

  /** Each vendor function is linked as often as its token occurs in the vendor string. */
  lemma VendorPlanCount(f: Functions, vendor: string, target: string)
    requires target in {"diag.diag", "cser.dun.0", "gsi.rmnet"}
    ensures Count(Plan(f, vendor), target) == Count(Text.Tokens(vendor, ','), TokenFor(target))
  {
    hide VendorTargets, Count, Text.Tokens;
    var tokens := Text.Tokens(vendor, ',');
    var before, v, adb := Media(f) + Plain(f), VendorTargets(tokens), If(f.adb, Target(ADB));
    forall b: Function ensures Target(b) != target { TargetsDiffer(b, b); }
    MaskTargets(f);
    assert forall i :: 0 <= i < |before| ==> before[i] in before;
    CountAbsent(before, target);
    CountAbsent(adb, target);
    CountAppend(before, v, target);
    CountAppend(before + v, adb, target);
    VendorTargetsCount(tokens);
  }

  lemma MaskTargets(f: Functions)
    ensures forall x :: x in Media(f) + Plain(f) ==>
              x in {Target(MTP), Target(PTP), Target(MIDI), Target(ACCESSORY), Target(AUDIO_SOURCE), Target(RNDIS)}
  {
    hide Target;
  }

  predicate PlanServes(f: Functions, vendor: string) {
    forall b: Function :: Count(Plan(f, vendor), Target(b)) == if f.Has(b) then 1 else 0
  }

  /** The `else if` drops a requested function exactly when both MTP and PTP are asked for... */
  lemma PlanServesUnlessMtpAndPtp(f: Functions, vendor: string)
    ensures PlanServes(f, vendor) <==> !(f.mtp && f.ptp)
  {
    forall b: Function
      ensures Count(Plan(f, vendor), Target(b)) == if f.Has(b) && !(b == PTP && f.mtp) then 1 else 0
    {
      PlanCount(f, vendor, b);
    }
  }

  /** ...which validateAndSetVidPid never accepts. */
  lemma AcceptedPlanServes(f: Functions, vendor: string)
    requires VidPid(f, vendor).Some?
    ensures PlanServes(f, vendor)
  {
    AcceptedIsSupported(f, vendor);
    PlanServesUnlessMtpAndPtp(f, vendor);
  }

  // ---------- endpoints follow the plan ----------

  function EndpointsFor(target: string): seq<string> {
    if target == "ffs.mtp" then MTP_ENDPOINTS
    else if target == "ffs.ptp" then PTP_ENDPOINTS
    else if target == "ffs.adb" then ADB_ENDPOINTS
    else []
  }

  lemma {:induction false} FlatMapAppend(f: string -> seq<string>, a: seq<string>, b: seq<string>)
    ensures FlatMap(f, a + b) == FlatMap(f, a) + FlatMap(f, b)
  {
    if a == [] {
      assert a + b == b;
    } else {
      assert (a + b)[1..] == a[1..] + b;
      FlatMapAppend(f, a[1..], b);
    }
  }

  lemma {:induction false} FlatMapEmpty(f: string -> seq<string>, s: seq<string>)
    requires forall i :: 0 <= i < |s| ==> f(s[i]) == []
    ensures FlatMap(f, s) == []
  {
    if s != [] {
      FlatMapEmpty(f, s[1..]);
    }
  }

  lemma FlatMapAround(f: string -> seq<string>, first: seq<string>, x: seq<string>, y: seq<string>, last: seq<string>)
    requires FlatMap(f, x) == [] && FlatMap(f, y) == []
    ensures FlatMap(f, first + x + y + last) == FlatMap(f, first) + FlatMap(f, last)
  {
    FlatMapAppend(f, first + x + y, last);
    FlatMapAppend(f, first + x, y);
    FlatMapAppend(f, first, x);
  }

  lemma FlatMapIf(f: string -> seq<string>, condition: bool, x: string)
    ensures FlatMap(f, If(condition, x)) == if condition then f(x) else []
  {
    assert FlatMap(f, [x][1..]) == [];
  }

  lemma VendorTokenHasNoEndpoints(token: string)
    ensures FlatMap(EndpointsFor, VendorTarget(token)) == []
  {
    assert "diag.diag"[0] == 'd' && "cser.dun.0"[0] == 'c' && "gsi.rmnet"[0] == 'g';
    FlatMapEmpty(EndpointsFor, VendorTarget(token));
  }

  lemma {:induction false} VendorHasNoEndpoints(tokens: seq<string>)
    ensures FlatMap(EndpointsFor, VendorTargets(tokens)) == []
  {
    if tokens != [] {
      VendorTokenHasNoEndpoints(tokens[0]);
      VendorHasNoEndpoints(tokens[1..]);
      FlatMapAppend(EndpointsFor, VendorTarget(tokens[0]), VendorTargets(tokens[1..]));
    }
  }

  lemma PlainHasNoEndpoints(f: Functions)
    ensures FlatMap(EndpointsFor, Plain(f)) == []
  {
    assert Target(MIDI)[0] == 'm' && Target(ACCESSORY)[0] == 'a'
      && Target(AUDIO_SOURCE)[0] == 'a' && Target(RNDIS)[0] == 'g';
    FlatMapEmpty(EndpointsFor, Plain(f));
  }

  lemma FfsEndpoints(f: Functions)
    ensures FlatMap(EndpointsFor, Media(f)) + FlatMap(EndpointsFor, If(f.adb, Target(ADB))) == EndpointsOf(f)
  {
    FlatMapIf(EndpointsFor, f.mtp, Target(MTP));
    FlatMapIf(EndpointsFor, !f.mtp && f.ptp, Target(PTP));
    FlatMapAppend(EndpointsFor, If(f.mtp, Target(MTP)), If(!f.mtp && f.ptp, Target(PTP)));
    FlatMapIf(EndpointsFor, f.adb, Target(ADB));
    assert Target(PTP)[4] == 'p' && Target(MTP)[4] == 'm' && Target(ADB)[4] == 'a';
  }

  /** The service waits for the endpoints of the ffs functions it links, in order, and no others. */
  lemma EndpointsFollowPlan(f: Functions, vendor: string)
    ensures FlatMap(EndpointsFor, Plan(f, vendor)) == EndpointsOf(f)
  {
    var vendorTargets := VendorTargets(Text.Tokens(vendor, ','));
    PlainHasNoEndpoints(f);
    VendorHasNoEndpoints(Text.Tokens(vendor, ','));
    FlatMapAround(EndpointsFor, Media(f), Plain(f), vendorTargets, If(f.adb, Target(ADB)));
    FfsEndpoints(f);
  }
}
