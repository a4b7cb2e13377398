/**
 The sequential part of a USB function request: clearing the configfs directory, choosing the
 ids, and linking the functions. File operations that the kernel may refuse return an error that
 nothing here predicts.
 */
module GadgetSetup {
  import opened Wrappers
  import opened GadgetFunctions
  import Decimal
  import Text

  const FUNCTION_NAME := "function"
  const FUNCTIONS_PATH := "/config/usb_gadget/g1/functions/"

  predicate IsFunctionEntry(name: string) { Text.Contains(name, FUNCTION_NAME) }

  function LinkName(index: nat): string { FUNCTION_NAME + Decimal.PrintInt(index) }

  /** The links function0, function1, ... to the targets, in order. */
  function Links(targets: seq<string>): map<string, string> {
    if targets == [] then map[]
    else
      var n := |targets| - 1;
      Links(targets[..n])[LinkName(n) := FUNCTIONS_PATH + targets[n]]
  }

  lemma LinkNamesDiffer(i: nat, j: nat)
    requires LinkName(i) == LinkName(j)
    ensures i == j
  {
    assert Decimal.PrintInt(i) == LinkName(i)[|FUNCTION_NAME|..] == Decimal.PrintInt(j);
    Decimal.PrintNatInjective(i, j);
  }

  /** Entry i is called "function" and the number, and that is what marks an entry as a function. */
  lemma NamesByNumber(i: nat, name: string)
    ensures LinkName(i) == "function" + Decimal.PrintInt(i)
    ensures IsFunctionEntry(name) <==> Text.Contains(name, "function")
  {
  }

  lemma LinkNameIsFunctionEntry(i: nat)
    ensures IsFunctionEntry(LinkName(i))
  {
    assert LinkName(i) == "" + FUNCTION_NAME + Decimal.PrintInt(i);
    Text.ContainsIntro("", FUNCTION_NAME, Decimal.PrintInt(i));
  }

  lemma {:induction false} LinksOnlyNumbers(targets: seq<string>, name: string)
    ensures name in Links(targets) <==> exists i: nat :: i < |targets| && name == LinkName(i)
  {
    hide LinkName, FUNCTIONS_PATH;
    if targets != [] {
      LinksOnlyNumbers(targets[..|targets| - 1], name);
    }
  }

  lemma {:induction false} LinkAt(targets: seq<string>, i: nat)
    requires i < |targets|
    ensures LinkName(i) in Links(targets) && Links(targets)[LinkName(i)] == FUNCTIONS_PATH + targets[i]
  {
    var n := |targets| - 1;
    if i < n {
      LinkAt(targets[..n], i);
      if LinkName(i) == LinkName(n) {
        LinkNamesDiffer(i, n);
      }
    }
  }

  lemma {:induction false} LinksCount(targets: seq<string>)
    ensures |Links(targets)| == |targets|
  {
    if targets != [] {
      var n := |targets| - 1;
      LinksCount(targets[..n]);
      LinksOnlyNumbers(targets[..n], LinkName(n));
      forall i: nat | i < n ensures LinkName(i) != LinkName(n) {
        if LinkName(i) == LinkName(n) {
          LinkNamesDiffer(i, n);
        }
      }
    }
  }

  /** The directory with every function entry gone. */
  function Cleared(dir: map<string, string>): map<string, string> {
    map name | name in dir && !IsFunctionEntry(name) :: dir[name]
  }

  predicate Lists(entries: seq<string>, dir: map<string, string>) {
    && (forall i, j :: 0 <= i < j < |entries| ==> entries[i] != entries[j])
    && (forall i :: 0 <= i < |entries| ==> entries[i] in dir)
    && (forall name :: name in dir ==> name in entries)
  }

  /** The function entries that point to `path`. */
  function LinksTo(dir: map<string, string>, path: string): set<string> {
    set name | name in dir && IsFunctionEntry(name) && dir[name] == path
  }

  /** What a host must see of the requested mask: one link to the function of each requested bit, and none to
      the function of any other. */
  predicate ServesMask(dir: map<string, string>, f: Functions) {
    && |LinksTo(dir, "/config/usb_gadget/g1/functions/ffs.mtp")| == One(f.mtp)
    && |LinksTo(dir, "/config/usb_gadget/g1/functions/ffs.ptp")| == One(f.ptp)
    && |LinksTo(dir, "/config/usb_gadget/g1/functions/midi.gs5")| == One(f.midi)
    && |LinksTo(dir, "/config/usb_gadget/g1/functions/accessory.gs2")| == One(f.accessory)
    && |LinksTo(dir, "/config/usb_gadget/g1/functions/audio_source.gs3")| == One(f.audioSource)
    && |LinksTo(dir, "/config/usb_gadget/g1/functions/gsi.rndis")| == One(f.rndis)
    && |LinksTo(dir, "/config/usb_gadget/g1/functions/ffs.adb")| == One(f.adb)
  }

  function One(requested: bool): nat { if requested then 1 else 0 }

  /** And of the vendor string: one link for each occurrence of a token that is known. */
  predicate ServesVendor(dir: map<string, string>, vendor: string) {
    var tokens := Text.Tokens(vendor, ',');
    && |LinksTo(dir, "/config/usb_gadget/g1/functions/diag.diag")| == Count(tokens, "diag")
    && |LinksTo(dir, "/config/usb_gadget/g1/functions/cser.dun.0")| == Count(tokens, "serial_cdev")
    && |LinksTo(dir, "/config/usb_gadget/g1/functions/gsi.rmnet")| == Count(tokens, "rmnet_gsi")
  }

  lemma {:induction false} LinksToCount(targets: seq<string>, target: string)
    ensures |LinksTo(Links(targets), FUNCTIONS_PATH + target)| == Count(targets, target)
  {
    if targets != [] {
      var n := |targets| - 1;
      var name, before := LinkName(n), targets[..n];
      LinksToCount(before, target);
      LinkNameIsFunctionEntry(n);
      LinkIsNew(before);
      CountLast(targets, target);
      SamePath(targets[n], target);
      var was, now := LinksTo(Links(before), FUNCTIONS_PATH + target), LinksTo(Links(targets), FUNCTIONS_PATH + target);
      hide IsFunctionEntry, LinkName;
      assert name !in was;
      assert now == if targets[n] == target then was + {name} else was;
    }
  }

  lemma LinkIsNew(targets: seq<string>)
    ensures LinkName(|targets|) !in Links(targets)
  {
    LinksOnlyNumbers(targets, LinkName(|targets|));
    if i: nat :| i < |targets| && LinkName(|targets|) == LinkName(i) {
      LinkNamesDiffer(|targets|, i);
    }
  }

  lemma CountLast(targets: seq<string>, target: string)
    requires targets != []
    ensures var n := |targets| - 1; Count(targets, target) == Count(targets[..n], target) + One(targets[n] == target)
  {
    var n := |targets| - 1;
    assert targets == targets[..n] + [targets[n]];
    CountAppend(targets[..n], [targets[n]], target);
    assert Count([targets[n]], target) == One(targets[n] == target) + Count([], target);
  }

  lemma SamePath(a: string, b: string)
    ensures FUNCTIONS_PATH + a == FUNCTIONS_PATH + b <==> a == b
  {
    var p := FUNCTIONS_PATH;
    assert (p + a)[|p|..] == a && (p + b)[|p|..] == b;
  }

  /** In a cleared directory only the plan's links count. */
  lemma ClearedLinksTo(dir: map<string, string>, plan: seq<string>, target: string)
    ensures |LinksTo(Cleared(dir) + Links(plan), FUNCTIONS_PATH + target)| == Count(plan, target)
  {
    LinksToCount(plan, target);
    hide IsFunctionEntry, Links;
    var path := FUNCTIONS_PATH + target;
    assert LinksTo(Cleared(dir) + Links(plan), path) == LinksTo(Links(plan), path);
  }

  lemma BitByName(dir: map<string, string>, f: Functions, vendor: string, b: Function, path: string)
    requires PlanServes(f, vendor) && path == FUNCTIONS_PATH + Target(b)
    ensures |LinksTo(Cleared(dir) + Links(Plan(f, vendor)), path)| == One(f.Has(b))
  {
    hide LinksTo, Cleared, Links, Plan, Target;
    ClearedLinksTo(dir, Plan(f, vendor), Target(b));
  }

  lemma MaskByName(dir: map<string, string>, f: Functions, vendor: string)
    requires PlanServes(f, vendor)
    ensures ServesMask(Cleared(dir) + Links(Plan(f, vendor)), f)
  {
    hide PlanServes, LinksTo, Cleared, Links, Plan, Target, One, FUNCTIONS_PATH;
    MaskPaths();
    BitByName(dir, f, vendor, MTP, "/config/usb_gadget/g1/functions/ffs.mtp");
    BitByName(dir, f, vendor, PTP, "/config/usb_gadget/g1/functions/ffs.ptp");
    BitByName(dir, f, vendor, MIDI, "/config/usb_gadget/g1/functions/midi.gs5");
    BitByName(dir, f, vendor, ACCESSORY, "/config/usb_gadget/g1/functions/accessory.gs2");
    BitByName(dir, f, vendor, AUDIO_SOURCE, "/config/usb_gadget/g1/functions/audio_source.gs3");
    BitByName(dir, f, vendor, RNDIS, "/config/usb_gadget/g1/functions/gsi.rndis");
    BitByName(dir, f, vendor, ADB, "/config/usb_gadget/g1/functions/ffs.adb");
  }

  lemma VendorByName(dir: map<string, string>, f: Functions, vendor: string)
    ensures ServesVendor(Cleared(dir) + Links(Plan(f, vendor)), vendor)
  {
    hide LinksTo, Cleared, Links, Plan, Count, Text.Tokens, TokenFor, FUNCTIONS_PATH;
    VendorPaths();
    var plan := Plan(f, vendor);
    ClearedLinksTo(dir, plan, "diag.diag");
    ClearedLinksTo(dir, plan, "cser.dun.0");
    ClearedLinksTo(dir, plan, "gsi.rmnet");
    VendorPlanCount(f, vendor, "diag.diag");
    VendorPlanCount(f, vendor, "cser.dun.0");
    VendorPlanCount(f, vendor, "gsi.rmnet");
  }

  /** The links of a request in a cleared directory, by name. */
  lemma PlanServesByName(dir: map<string, string>, f: Functions, vendor: string)
    requires PlanServes(f, vendor)
    ensures var after := Cleared(dir) + Links(Plan(f, vendor)); ServesMask(after, f) && ServesVendor(after, vendor)
  {
    hide ServesMask, ServesVendor;
    MaskByName(dir, f, vendor);
    VendorByName(dir, f, vendor);
  }

  lemma MaskPaths()
    ensures FUNCTIONS_PATH + Target(MTP) == "/config/usb_gadget/g1/functions/ffs.mtp"
    ensures FUNCTIONS_PATH + Target(PTP) == "/config/usb_gadget/g1/functions/ffs.ptp"
    ensures FUNCTIONS_PATH + Target(MIDI) == "/config/usb_gadget/g1/functions/midi.gs5"
    ensures FUNCTIONS_PATH + Target(ACCESSORY) == "/config/usb_gadget/g1/functions/accessory.gs2"
    ensures FUNCTIONS_PATH + Target(AUDIO_SOURCE) == "/config/usb_gadget/g1/functions/audio_source.gs3"
    ensures FUNCTIONS_PATH + Target(RNDIS) == "/config/usb_gadget/g1/functions/gsi.rndis"
    ensures FUNCTIONS_PATH + Target(ADB) == "/config/usb_gadget/g1/functions/ffs.adb"
  {
  }

  lemma VendorPaths()
    ensures FUNCTIONS_PATH + "diag.diag" == "/config/usb_gadget/g1/functions/diag.diag"
    ensures FUNCTIONS_PATH + "cser.dun.0" == "/config/usb_gadget/g1/functions/cser.dun.0"
    ensures FUNCTIONS_PATH + "gsi.rmnet" == "/config/usb_gadget/g1/functions/gsi.rmnet"
    ensures TokenFor("diag.diag") == "diag" && TokenFor("cser.dun.0") == "serial_cdev"
    ensures TokenFor("gsi.rmnet") == "rmnet_gsi"
  {
    assert "diag.diag"[0] == 'd' && "cser.dun.0"[0] == 'c' && "gsi.rmnet"[0] == 'g';
  }

  class Gadget {
    var dir: map<string, string>   // configs/b.1/: entry name to link target
    var endpoints: seq<string>     // mEndpointList
    var vidPid: (string, string)   // idVendor, idProduct
    var properties: Properties
    ghost var refused: bool        // the kernel has refused an operation of this request

    constructor (dir: map<string, string>, properties: Properties)
      ensures this.dir == dir && endpoints == [] && this.properties == properties && !refused
    {
      refused := false;
      this.dir := dir;
      endpoints := [];
      vidPid := ("", "");
      this.properties := properties;
    }

    /** A write, watch or property call that may fail. */
    method Attempt() returns (ok: bool)
      modifies this`refused
      ensures refused == (old(refused) || !ok)
    {
      ok := *;
      refused := refused || !ok;
    }

    method Remove(name: string) returns (err: bool)
      modifies this`dir, this`refused
      ensures old(refused) ==> refused
      ensures err ==> dir == old(dir) && (refused || name !in dir)
      ensures !err ==> name in old(dir) && dir == old(dir) - {name}
    {
      var ok := Attempt();
      if ok && name in dir {
        dir := dir - {name};
        return false;
      }
      return true;
    }

    /** unlinkFunctions: `listing` is what opendir and readdir give, None if opendir fails. */
    method UnlinkFunctions(listing: Option<seq<string>>) returns (ret: int)
      requires listing.Some? ==> Lists(listing.value, dir)
      modifies this`dir, this`refused
      ensures old(refused) ==> refused
      ensures ret == 0 ==> listing.Some? && dir == Cleared(old(dir))
      ensures ret != 0 ==> listing.None? || refused
      ensures listing.None? ==> ret != 0 && refused == old(refused) && dir == old(dir)
      ensures Cleared(dir) == Cleared(old(dir)) && dir.Keys <= old(dir).Keys
    {
      if listing.None? { return -1; }
      var entries := listing.value;
      ret := 0;
      var k := 0;
      while k < |entries|
        invariant 0 <= k <= |entries| && ret == 0 && (old(refused) ==> refused)
        invariant forall name :: name in dir <==> name in old(dir) && !(name in entries[..k] && IsFunctionEntry(name))
        invariant forall name :: name in dir ==> dir[name] == old(dir)[name]
      {
        var name := entries[k];
        assert entries[..k + 1] == entries[..k] + [name];
        if IsFunctionEntry(name) {
          var err := Remove(name);
          if err {
            ret := -1;
            break;
          }
        }
        k := k + 1;
      }
      assert k == |entries| ==> entries[..k] == entries;
    }

    lemma NothingMade(before: map<string, string>, plan: seq<string>)
      requires dir == before
      ensures Made(before, plan, 0)
    {
    }

    /** symlink: an existing link name is an error. */
    method LinkFunction(function_: string, index: nat) returns (err: bool)
      modifies this`dir, this`refused
      ensures old(refused) ==> refused
      ensures err ==> dir == old(dir) && (refused || LinkName(index) in dir)
      ensures !err ==> LinkName(index) !in old(dir) && dir == old(dir)[LinkName(index) := FUNCTIONS_PATH + function_]
    {
      var ok := Attempt();
      if !ok || LinkName(index) in dir { return true; }
      dir := dir[LinkName(index) := FUNCTIONS_PATH + function_];
      return false;
    }

    /** The links made so far are the first `n` of the plan, on top of `before`. */
    ghost predicate Made(before: map<string, string>, plan: seq<string>, n: nat)
      reads this`dir
    {
      n <= |plan| && dir == before + Links(plan[..n])
    }

    /** `if (condition && linkFunction(function, i++)) return ERROR` */
    method LinkIf(condition: bool, function_: string, index: nat,
          ghost before: map<string, string>, ghost plan: seq<string>)
      returns (err: bool, i: nat)
      requires Made(before, plan, index) && At(plan, index, If(condition, function_))
      modifies this`dir, this`refused
      ensures old(refused) ==> refused
      ensures err ==> Made(before, plan, index) && (refused || LinkName(index) in dir)
      ensures !err ==> i == index + |If(condition, function_)| && Made(before, plan, i)
    {
      hide Links, LinkName, FUNCTIONS_PATH;
      i, err := index, false;
      if condition {
        err := LinkFunction(function_, i);
        i := i + 1;
        LinksStep(before, plan, index, function_);
      }
    }

    method GetVendorFunctions() returns (r: string)
      modifies this`properties, this`refused
      ensures old(refused) ==> refused
      ensures r == VendorFunctions(old(properties))
      ensures !refused ==> properties == AfterGetVendorFunctions(old(properties), true)
      ensures properties == old(properties) || properties == AfterGetVendorFunctions(old(properties), true)
    {
      if properties.buildType == "user" { return "user"; }
      r := "";
      if properties.vendorConfig != "" {
        r := properties.vendorConfig;
      } else if properties.bootMode == "usbradio" {
        if properties.persistConfig != "" {
          r := properties.persistConfig;
        } else {
          r := "diag";
        }
        var ok := Attempt();
        if ok {
          properties := properties.(vendorConfig := r);
        }
      }
    }

    method ValidateAndSetVidPid(functions: Functions) returns (status: Status)
      modifies this`vidPid, this`properties, this`refused
      ensures old(refused) ==> refused
      ensures status == ERROR ==> refused
      ensures !refused ==> properties == AfterGetVendorFunctions(old(properties), true)
      ensures properties == old(properties) || properties == AfterGetVendorFunctions(old(properties), true)
      ensures var ids := VidPid(functions, VendorFunctions(old(properties)));
              && (status == SUCCESS ==> ids == Some(vidPid))
              && (status == CONFIGURATION_NOT_SUPPORTED <==> ids == None)
              && (status == CONFIGURATION_NOT_SUPPORTED ==> vidPid == old(vidPid))
    {
      var vendorFunctions := GetVendorFunctions();
      var ids := VidPid(functions, vendorFunctions);
      if ids.None? { return CONFIGURATION_NOT_SUPPORTED; }
      var ok := Attempt();
      if !ok { return ERROR; }
      vidPid := (ids.value.0, vidPid.1);
      ok := Attempt();
      if !ok { return ERROR; }
      vidPid := (vidPid.0, ids.value.1);
      return SUCCESS;
    }

    /** The MTP and PTP part of setupFunctions. */
    method LinkMedia(f: Functions, ghost before: map<string, string>, ghost plan: seq<string>)
      returns (err: bool, i: nat)
      requires Made(before, plan, 0) && At(plan, 0, Media(f))
      modifies this`dir, this`endpoints, this`refused
      ensures old(refused) ==> refused
      ensures err ==> Made(before, plan, 0) && endpoints == old(endpoints) && (refused || LinkName(0) in dir)
      ensures !err ==> i == |Media(f)| && Made(before, plan, i) && endpoints == old(endpoints) + MediaEndpoints(f)
    {
      hide Links, LinkName;
      i, err := 0, true;
      if f.mtp {
        var ok := Attempt();                           // os_desc/use
        if !ok { return; }
        ok := Attempt();                               // inotify watch
        if !ok { return; }
        err, i := LinkIf(true, Target(MTP), i, before, plan);
        if err { return; }
        endpoints := endpoints + MTP_ENDPOINTS;
      } else if f.ptp {
        var ok := Attempt();
        if !ok { return; }
        ok := Attempt();
        if !ok { return; }
        err, i := LinkIf(true, Target(PTP), i, before, plan);
        if err { return; }
        endpoints := endpoints + PTP_ENDPOINTS;
      }
      err := false;
    }

    /** The functions without endpoints: MIDI, accessory, audio source and RNDIS. */
    method LinkPlain(f: Functions, index: nat, ghost before: map<string, string>, ghost plan: seq<string>)
      returns (err: bool, i: nat, ghost n: nat)
      requires Made(before, plan, index) && At(plan, index, Plain(f))
      modifies this`dir, this`refused
      ensures old(refused) ==> refused
      ensures Made(before, plan, n) && (err ==> refused || LinkName(n) in dir)
      ensures !err ==> i == n == index + |Plain(f)|
    {
      hide *;
      PlainSections(f, plan, index);
      n := index;
      err, i := LinkIf(f.midi, Target(MIDI), index, before, plan);
      if err { return; }
      n := i;
      err, i := LinkIf(f.accessory, Target(ACCESSORY), i, before, plan);
      if err { return; }
      n := i;
      err, i := LinkIf(f.audioSource, Target(AUDIO_SOURCE), i, before, plan);
      if err { return; }
      n := i;
      err, i := LinkIf(f.rndis, Target(RNDIS), i, before, plan);
      if err { return; }
      n := i;
    }

    /** The three tests on one token of the vendor string. */
    method LinkVendorToken(token: string, index: nat, ghost before: map<string, string>, ghost plan: seq<string>)
      returns (err: bool, i: nat, ghost n: nat)
      requires Made(before, plan, index) && At(plan, index, VendorTarget(token))
      modifies this`dir, this`refused
      ensures old(refused) ==> refused
      ensures Made(before, plan, n) && (err ==> refused || LinkName(n) in dir)
      ensures !err ==> i == n == index + |VendorTarget(token)|
    {
      hide Links, LinkName;
      ghost var diag, serial := If(token == "diag", "diag.diag"), If(token == "serial_cdev", "cser.dun.0");
      AtSplit(plan, index, diag + serial, If(token == "rmnet_gsi", "gsi.rmnet"));
      AtSplit(plan, index, diag, serial);
      n := index;
      err, i := LinkIf(token == "diag", "diag.diag", index, before, plan);
      if err { return; }
      n := i;
      err, i := LinkIf(token == "serial_cdev", "cser.dun.0", i, before, plan);
      if err { return; }
      n := i;
      err, i := LinkIf(token == "rmnet_gsi", "gsi.rmnet", i, before, plan);
      if err { return; }
      n := i;
    }

    /** The strtok scan over the vendor string. */
    method LinkVendor(vendor: string, index: nat, ghost before: map<string, string>, ghost plan: seq<string>)
      returns (err: bool, i: nat, ghost n: nat)
      requires Made(before, plan, index) && At(plan, index, VendorTargets(Text.Tokens(vendor, ',')))
      modifies this`dir, this`refused
      ensures old(refused) ==> refused
      ensures Made(before, plan, n) && (err ==> refused || LinkName(n) in dir)
      ensures !err ==> i == n == index + |VendorTargets(Text.Tokens(vendor, ','))|
    {
      hide *;
      i, n, err := index, index, false;
      ghost var end := index + |VendorTargets(Text.Tokens(vendor, ','))|;
      VendorStep(vendor);
      var (function_, rest) := Text.Strtok(vendor, ',');
      while function_.Some?
        invariant !err && i == n && Made(before, plan, n) && (old(refused) ==> refused)
        invariant !function_.Some? ==> i == end
        invariant function_.Some? ==>
                    var todo := VendorTarget(function_.value) + VendorTargets(Text.Tokens(rest, ','));
                    At(plan, i, todo) && i + |todo| == end
        decreases |rest|, function_.Some?
      {
        AtSplit(plan, i, VendorTarget(function_.value), VendorTargets(Text.Tokens(rest, ',')));
        err, i, n := LinkVendorToken(function_.value, i, before, plan);
        if err { return; }
        VendorStep(rest);
        var next := Text.Strtok(rest, ',');
        function_, rest := next.0, next.1;
      }
    }

    /** setupFunctions up to the pull-up: every link and every endpoint of the request. `n` counts
        the links made. */
    method SetupLinks(f: Functions) returns (status: Status, ghost n: nat)
      modifies this`dir, this`endpoints, this`properties, this`refused
      ensures old(refused) ==> refused
      ensures status == SUCCESS || (status == ERROR && (refused || LinkName(n) in dir))
      ensures Made(old(dir), Plan(f, VendorFunctions(old(properties))), n)
      ensures status == SUCCESS ==> n == |Plan(f, VendorFunctions(old(properties)))|
      ensures status == SUCCESS ==> endpoints == old(endpoints) + EndpointsOf(f)
      ensures old(endpoints) <= endpoints <= old(endpoints) + EndpointsOf(f)
      ensures !refused && status == SUCCESS ==> properties == AfterGetVendorFunctions(old(properties), true)
      ensures properties == old(properties) || properties == AfterGetVendorFunctions(old(properties), true)
    {
      hide *;
      status, n := ERROR, 0;
      ghost var before := dir;
      ghost var plan := Plan(f, VendorFunctions(properties));
      PlanSections(f, VendorFunctions(properties));
      NothingMade(before, plan);
      var ok := Attempt();                             // inotify_init
      if !ok { return; }
      var err, i := LinkMedia(f, before, plan);
      if err { return; }
      err, i, n := LinkPlain(f, i, before, plan);
      if err { return; }
      var vendorFunctions := GetVendorFunctions();
      NoVendorNoTargets();
      if vendorFunctions != "" {
        err, i, n := LinkVendor(vendorFunctions, i, before, plan);
        if err { return; }
      }
      if f.adb {
        ok := Attempt();                               // os_desc/use
        if !ok { return; }
        ok := Attempt();                               // inotify watch
        if !ok { return; }
        err, i := LinkIf(true, Target(ADB), i, before, plan);
        if err { return; }
        n := i;
        endpoints := endpoints + ADB_ENDPOINTS;
      }
      status := SUCCESS;
    }

    /** A request from the unlinking to the last link: the part of setCurrentUsbFunctions that
        decides what the host will see. `refused` starts afresh, so it tells whether the kernel has
        refused an operation of this very request. */
    method Configure(f: Functions, listing: Option<seq<string>>) returns (status: Status)
      requires listing.Some? ==> Lists(listing.value, dir)
      modifies this
      ensures status == ERROR ==> refused || listing.None?
      ensures listing.None? ==> status == ERROR && !refused && dir == old(dir)
      ensures Cleared(dir) == Cleared(old(dir))
      ensures status == SUCCESS && f == NONE ==> dir == Cleared(old(dir)) && endpoints == []
      ensures status == SUCCESS && f != NONE ==>
                var vendor := VendorFunctions(old(properties));
                && dir == Cleared(old(dir)) + Links(Plan(f, vendor))
                && ServesMask(dir, f) && ServesVendor(dir, vendor)
                && endpoints == EndpointsOf(f)
                && Some(vidPid) == VidPid(f, vendor)
                && VendorFunctions(properties) == vendor
                && (!refused ==> properties == AfterGetVendorFunctions(old(properties), true))
      ensures status == CONFIGURATION_NOT_SUPPORTED ==>
                f != NONE && VidPid(f, VendorFunctions(old(properties))) == None && dir == Cleared(old(dir))
    {
      hide Links, IsFunctionEntry, VidPid, Plan, EndpointsOf, PlanServes, LinkName, ServesMask, ServesVendor;
      ghost var vendor := VendorFunctions(properties);
      refused := false;
      var ret := UnlinkFunctions(listing);
      if ret != 0 { return ERROR; }
      endpoints := [];
      if f == NONE { return SUCCESS; }
      VendorFunctionsAreStable(properties, true);
      status := ValidateAndSetVidPid(f);
      if status != SUCCESS { return; }
      AcceptedPlanServes(f, vendor);
      VendorFunctionsAreStable(properties, true);
      ghost var n;
      status, n := SetupLinks(f);
      ghost var plan := Plan(f, vendor);
      assert n == |plan| ==> plan[..n] == plan;
      PlanServesByName(old(dir), f, vendor);
      LinksAreFunctionEntries(plan[..n]);
      NextNameIsFree(old(dir), plan[..n]);
    }
  }

  /** In a cleared directory the next number is never taken. */
  lemma NextNameIsFree(dir: map<string, string>, made: seq<string>)
    ensures LinkName(|made|) !in Cleared(dir) + Links(made)
  {
    hide Links, IsFunctionEntry, LinkName;
    LinkNameIsFunctionEntry(|made|);
    LinksOnlyNumbers(made, LinkName(|made|));
    if LinkName(|made|) in Links(made) {
      var i: nat :| i < |made| && LinkName(|made|) == LinkName(i);
      LinkNamesDiffer(|made|, i);
    }
  }

  lemma LinksAreFunctionEntries(targets: seq<string>)
    ensures forall name :: name in Links(targets) ==> IsFunctionEntry(name)
  {
    forall name | name in Links(targets) ensures IsFunctionEntry(name) {
      LinksOnlyNumbers(targets, name);
      var i: nat :| i < |targets| && name == LinkName(i);
      LinkNameIsFunctionEntry(i);
    }
  }

  /** A cleared directory with a plan linked on top holds exactly function0, function1, ... for the
      plan's targets in order, without gaps, beside the entries that were never touched. */
  lemma LinkedDirectory(dir: map<string, string>, plan: seq<string>)
    ensures var after := Cleared(dir) + Links(plan);
            && (forall name :: name in after && IsFunctionEntry(name) <==>
                  exists i: nat :: i < |plan| && name == LinkName(i))
            && (forall i: nat :: i < |plan| ==> LinkName(i) in after && after[LinkName(i)] == FUNCTIONS_PATH + plan[i])
            && (forall i: nat, j: nat :: i < j ==> LinkName(i) != LinkName(j))
            && (forall name :: name in dir && !IsFunctionEntry(name) ==> name in after && after[name] == dir[name])
            && |Links(plan)| == |plan|
  {
    hide Links, IsFunctionEntry, LinkName;
    var after := Cleared(dir) + Links(plan);
    LinksAreFunctionEntries(plan);
    LinksCount(plan);
    forall name ensures name in Links(plan) <==> exists i: nat :: i < |plan| && name == LinkName(i) {
      LinksOnlyNumbers(plan, name);
    }
    forall i: nat | i < |plan| ensures LinkName(i) in after && after[LinkName(i)] == FUNCTIONS_PATH + plan[i] {
      LinkAt(plan, i);
    }
    forall i: nat, j: nat | i < j ensures LinkName(i) != LinkName(j) {
      if LinkName(i) == LinkName(j) { LinkNamesDiffer(i, j); }
    }
  }

  lemma LinksStep(before: map<string, string>, plan: seq<string>, index: nat, function_: string)
    requires At(plan, index, [function_])
    ensures before + Links(plan[..index + 1])
         == (before + Links(plan[..index]))[LinkName(index) := FUNCTIONS_PATH + function_]
  {
    hide LinkName, FUNCTIONS_PATH;
    assert plan[index..index + 1][0] == plan[index];
    assert plan[..index + 1][..index] == plan[..index];
  }

  /** `x` stands in `plan` at position `i`. */
  predicate At(plan: seq<string>, i: nat, x: seq<string>) {
    i + |x| <= |plan| && plan[i..i + |x|] == x
  }

  lemma AtSplit(plan: seq<string>, i: nat, x: seq<string>, y: seq<string>)
    requires At(plan, i, x + y)
    ensures At(plan, i, x) && At(plan, i + |x|, y)
  {
    var both := plan[i..i + |x + y|];
    assert x == both[..|x|] == plan[i..i + |x|];
    assert y == both[|x|..] == plan[i + |x|..i + |x| + |y|];
  }

  lemma PlainSections(f: Functions, plan: seq<string>, i: nat)
    requires At(plan, i, Plain(f))
    ensures var midi, accessory := If(f.midi, Target(MIDI)), If(f.accessory, Target(ACCESSORY));
            var audio, rndis := If(f.audioSource, Target(AUDIO_SOURCE)), If(f.rndis, Target(RNDIS));
            && At(plan, i, midi)
            && At(plan, i + |midi|, accessory)
            && At(plan, i + |midi| + |accessory|, audio)
            && At(plan, i + |midi| + |accessory| + |audio|, rndis)
            && |Plain(f)| == |midi| + |accessory| + |audio| + |rndis|
  {
    var midi, accessory := If(f.midi, Target(MIDI)), If(f.accessory, Target(ACCESSORY));
    var audio, rndis := If(f.audioSource, Target(AUDIO_SOURCE)), If(f.rndis, Target(RNDIS));
    AtSplit(plan, i, midi + accessory + audio, rndis);
    AtSplit(plan, i, midi + accessory, audio);
    AtSplit(plan, i, midi, accessory);
  }

  lemma PlanSections(f: Functions, vendor: string)
    ensures var plan, v := Plan(f, vendor), VendorTargets(Text.Tokens(vendor, ','));
            && At(plan, 0, Media(f))
            && At(plan, |Media(f)|, Plain(f))
            && At(plan, |Media(f)| + |Plain(f)|, v)
            && At(plan, |Media(f)| + |Plain(f)| + |v|, If(f.adb, Target(ADB)))
            && |plan| == |Media(f)| + |Plain(f)| + |v| + (if f.adb then 1 else 0)
            && (f.adb ==> |If(true, Target(ADB))| == 1)
            && EndpointsOf(f) == MediaEndpoints(f) + if f.adb then ADB_ENDPOINTS else []
  {
    Sections(Media(f), Plain(f), VendorTargets(Text.Tokens(vendor, ',')), If(f.adb, Target(ADB)));
  }

  lemma Sections(a: seq<string>, b: seq<string>, c: seq<string>, d: seq<string>)
    ensures At(a + b + c + d, 0, a)
    ensures At(a + b + c + d, |a|, b)
    ensures At(a + b + c + d, |a| + |b|, c)
    ensures At(a + b + c + d, |a| + |b| + |c|, d)
  {
    assert At(a + b + c + d, 0, a + b + c + d);
    AtSplit(a + b + c + d, 0, a + b + c, d);
    AtSplit(a + b + c + d, 0, a + b, c);
    AtSplit(a + b + c + d, 0, a, b);
  }

  lemma VendorStep(vendor: string)
    ensures VendorTargets(Text.Tokens(vendor, ',')) ==
            match Text.Strtok(vendor, ',').0
            case None => []
            case Some(token) => VendorTarget(token) + VendorTargets(Text.Tokens(Text.Strtok(vendor, ',').1, ','))
    ensures var (token, rest) := Text.Strtok(vendor, ',');
            if token.Some? then |rest| < |vendor| else rest == []
  {
    Text.StrtokStep(vendor, ',');
    if Text.Strtok(vendor, ',').0.Some? {
      var token := Text.Strtok(vendor, ',').0.value;
      var rest := Text.Tokens(Text.Strtok(vendor, ',').1, ',');
      assert ([token] + rest)[1..] == rest;
    }
  }

  lemma NoVendorNoTargets()
    ensures VendorTargets(Text.Tokens("", ',')) == []
  {
    Text.NoTokens(',');
  }
}
