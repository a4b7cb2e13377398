/** The Type-C ports that the service reports, read from the entries and files of /sys/class/typec. */
module PortMap {
  import opened Wrappers
  import Text

  datatype Status = SUCCESS | ERROR | UNRECOGNIZED_ROLE

  // ---------- directory entries to ports ----------

  datatype DirEntry = DirEntry(name: string, isLink: bool)

  predicate IsPartner(name: string) { Text.Contains(name, "-partner") }

  /** The first '-'-delimited token, as strtok finds it. */
  function PortOf(name: string): string {
    var token := Text.Strtok(name, '-').0;
    if token.Some? then token.value else ""
  }

  function KeyOf(e: DirEntry): string { if IsPartner(e.name) then PortOf(e.name) else e.name }

  /** The entry shows that the port exists, or that something is connected to it. */
  predicate Names(e: DirEntry, port: string) { e.isLink && KeyOf(e) == port }

  predicate Connects(e: DirEntry, port: string) { e.isLink && IsPartner(e.name) && PortOf(e.name) == port }

  /** The ports are the plain names and the first tokens of the partner entries, and a port is
      connected exactly if some partner entry names it. */
  ghost predicate IsPortMap(names: map<string, bool>, entries: seq<DirEntry>) {
    && (forall port :: port in names <==> exists k :: 0 <= k < |entries| && Names(entries[k], port))
    && (forall port :: port in names ==> (names[port] <==>
            exists k :: 0 <= k < |entries| && Connects(entries[k], port)))
  }

  lemma {:induction false} SkipKeepsOther(s: string, d: char, i: nat)
    requires i < |s| && s[i] != d
    ensures Text.SkipChar(s, d) != ""
  {
    if s[0] == d { SkipKeepsOther(s[1..], d, i - 1); }
  }

  /** A partner entry always has a first token, and it is not empty: strtok does not return null. */
  lemma PartnerHasPort(name: string)
    requires IsPartner(name)
    ensures Text.Strtok(name, '-').0.Some? && PortOf(name) != ""
  {
    var i: nat :| i <= |name| && Text.OccursAt("-partner", name, i);
    assert name[i..i + 8][1] == name[i + 1] && "-partner"[1] == 'p';
    SkipKeepsOther(name, '-', i + 1);
  }

  /** Which port an entry names: "port0" names port0, "port0-partner" says that something is connected to it. */
  lemma EntriesByName(e: DirEntry, port: string, rest: string)
    requires e.isLink && port != "" && Text.Free(port, '-')
    ensures !Text.Contains(e.name, "-partner") ==> Names(e, e.name) && forall other :: !Connects(e, other)
    ensures e.name == port + "-partner" + rest ==>
              Connects(e, port) && forall other :: Names(e, other) || Connects(e, other) ==> other == port
  {
    hide Text.Contains;
    if e.name == port + "-partner" + rest {
      Text.ContainsIntro(port, "-partner", rest);
      FirstToken(port, "partner" + rest);
      assert e.name == port + ['-'] + ("partner" + rest);
    }
  }

  lemma FirstToken(port: string, rest: string)
    requires port != "" && Text.Free(port, '-')
    ensures PortOf(port + ['-'] + rest) == port
  {
    var s := port + ['-'] + rest;
    assert s[0] == port[0] && port[0] in port;
    BeforeIs(port, '-', rest);
  }

  method GetTypeCPortNames(listing: Option<seq<DirEntry>>) returns (status: Status, names: map<string, bool>)
    ensures status == SUCCESS || status == ERROR
    ensures status == SUCCESS <==> listing.Some?
    ensures status == SUCCESS ==> IsPortMap(names, listing.value)
  {
    hide Text.Strtok, IsPartner;
    names := map[];
    if listing.None? { return ERROR, names; }
    var entries := listing.value;
    var k := 0;
    while k < |entries|
      invariant 0 <= k <= |entries|
      invariant IsPortMap(names, entries[..k])
    {
      var ep := entries[k];
      ghost var before := names;
      if ep.isLink {
        if !IsPartner(ep.name) {
          if ep.name !in names {
            names := names[ep.name := false];
          }
        } else {
          PartnerHasPort(ep.name);
          names := names[PortOf(ep.name) := true];
        }
      }
      OneMoreEntry(before, names, entries, k);
      k := k + 1;
    }
    assert entries[..k] == entries;
    return SUCCESS, names;
  }

  lemma OneMoreEntry(before: map<string, bool>, after: map<string, bool>, entries: seq<DirEntry>, k: nat)
    requires k < |entries| && IsPortMap(before, entries[..k])
    requires var e := entries[k];
             after == if !e.isLink then before
                      else if IsPartner(e.name) then before[PortOf(e.name) := true]
                      else if e.name in before then before
                      else before[e.name := false]
    ensures IsPortMap(after, entries[..k + 1])
  {
    hide PortOf, IsPartner;
    var old_, now := entries[..k], entries[..k + 1];
    var e := entries[k];
    assert now == old_ + [e];
    forall port
      ensures port in after <==> exists i :: 0 <= i < |now| && Names(now[i], port)
      ensures port in after ==> (after[port] <==> exists i :: 0 <= i < |now| && Connects(now[i], port))
    {
      AnyOfOneMore(old_, e, port);
      assert Connects(e, port) ==> Names(e, port);
    }
  }

  lemma AnyOfOneMore(old_: seq<DirEntry>, e: DirEntry, port: string)
    ensures var now := old_ + [e];
            && ((exists i :: 0 <= i < |now| && Names(now[i], port)) <==>
                  (exists i :: 0 <= i < |old_| && Names(old_[i], port)) || Names(e, port))
            && ((exists i :: 0 <= i < |now| && Connects(now[i], port)) <==>
                  (exists i :: 0 <= i < |old_| && Connects(old_[i], port)) || Connects(e, port))
    ensures (exists i :: 0 <= i < |old_| && Connects(old_[i], port)) ==>
        exists i :: 0 <= i < |old_| && Names(old_[i], port)
  {
    hide Names, Connects;
    var now := old_ + [e];
    assert now[|old_|] == e && forall i :: 0 <= i < |old_| ==> now[i] == old_[i];
    forall i | 0 <= i < |old_| && Connects(old_[i], port) ensures Names(old_[i], port) {
      ConnectsNames(old_[i], port);
    }
  }

  lemma ConnectsNames(e: DirEntry, port: string)
    requires Connects(e, port)
    ensures Names(e, port)
  {
  }

  /** The order of the directory, and repeated entries, do not matter. */
  lemma OrderDoesNotMatter(names: map<string, bool>, entries: seq<DirEntry>,
    others: map<string, bool>, shuffled: seq<DirEntry>)
    requires IsPortMap(names, entries) && IsPortMap(others, shuffled)
    requires forall e :: e in entries <==> e in shuffled
    ensures names == others
  {
    hide Names, Connects;
    forall port
      ensures port in names <==> port in others
      ensures port in names ==> names[port] == others[port]
    {
      SameEntriesSameFacts(entries, shuffled, port);
      SameEntriesSameFacts(shuffled, entries, port);
    }
  }

  lemma SameEntriesSameFacts(entries: seq<DirEntry>, shuffled: seq<DirEntry>, port: string)
    requires forall e :: e in entries ==> e in shuffled
    ensures (exists k :: 0 <= k < |entries| && Names(entries[k], port)) ==>
        exists k :: 0 <= k < |shuffled| && Names(shuffled[k], port)
    ensures (exists k :: 0 <= k < |entries| && Connects(entries[k], port)) ==>
        exists k :: 0 <= k < |shuffled| && Connects(shuffled[k], port)
  {
    hide Names, Connects;
    forall k | 0 <= k < |entries| ensures exists j :: 0 <= j < |shuffled| && shuffled[j] == entries[k] {
      assert entries[k] in shuffled;
    }
  }

  // ---------- reading a role ----------

  /** Files by path; a missing one cannot be opened. */
  type Files = map<string, string>

  /** readFile: the first line. */
  function ReadFile(fs: Files, path: string): Option<string> {
    if path in fs then Some(Text.Before(fs[path], '\n')) else None
  }

  /** The role in brackets, as in "[host] device". If the closing bracket comes first, the length
      given to substr wraps around and the rest of the text is taken. */
  function ExtractRole(text: string): string {
    var first, last := |Text.Before(text, '[')|, |Text.Before(text, ']')|;
    if first < |text| && last < |text| then
      if first < last then text[first + 1..last] else text[first + 1..]
    else text
  }

  lemma BracketedRole(before: string, role: string, after: string)
    requires Text.Free(before, '[') && Text.Free(before, ']') && Text.Free(role, ']')
    ensures ExtractRole(before + "[" + role + "]" + after) == role
  {
    var text := before + "[" + role + "]" + after;
    assert text == before + ['['] + (role + "]" + after);
    BeforeIs(before, '[', role + "]" + after);
    assert text == (before + "[" + role) + [']'] + after;
    BeforeIs(before + "[" + role, ']', after);
  }

  lemma {:induction false} BeforeIs(a: string, d: char, b: string)
    requires Text.Free(a, d)
    ensures Text.Before(a + [d] + b, d) == a
  {
    if a != "" {
      assert a[0] in a && (a + [d] + b)[1..] == a[1..] + [d] + b;
      BeforeIs(a[1..], d, b);
    }
  }

  datatype RoleType = POWER_ROLE | DATA_ROLE | MODE

  /** The enumerator stored in `currentRole`, before it is cast to the type of the field. */
  datatype Role =
    | POWER_NONE | POWER_SOURCE | POWER_SINK
    | DATA_NONE | DATA_HOST | DATA_DEVICE
    | MODE_NONE | MODE_UFP | MODE_DFP | MODE_AUDIO_ACCESSORY | MODE_DEBUG_ACCESSORY

  const TYPEC := "/sys/class/typec/"

  function NoRole(t: RoleType): Role {
    match t case POWER_ROLE => POWER_NONE case DATA_ROLE => DATA_NONE case MODE => MODE_NONE
  }

  /** The final string comparisons of getCurrentRoleHelper. */
  function RoleNamed(name: string, t: RoleType): Option<Role> {
    if name == "source" then Some(POWER_SOURCE)
    else if name == "sink" then Some(POWER_SINK)
    else if name == "host" then Some(if t == DATA_ROLE then DATA_HOST else MODE_DFP)
    else if name == "device" then Some(if t == DATA_ROLE then DATA_DEVICE else MODE_UFP)
    else if name != "none" then None
    else Some(NoRole(t))
  }

  datatype RoleResult = Found(role: Role) | Failed(status: Status)

  function CurrentRole(fs: Files, port: string, connected: bool, t: RoleType): RoleResult {
    if !connected then Found(NoRole(t))
    else
      var accessory := if t == MODE then ReadFile(fs, TYPEC + port + "-partner/accessory_mode") else Some("");
      if accessory == None then Failed(ERROR)
      else if accessory == Some("analog_audio") then Found(MODE_AUDIO_ACCESSORY)
      else if accessory == Some("debug") then Found(MODE_DEBUG_ACCESSORY)
      else
        match ReadFile(fs, TYPEC + port + if t == POWER_ROLE then "/power_role" else "/data_role")
        case None => Failed(ERROR)
        case Some(line) =>
          match RoleNamed(ExtractRole(line), t)
          case None => Failed(UNRECOGNIZED_ROLE)
          case Some(role) => Found(role)
  }

  /** The name under which the kernel reports a role of the given type. */
  function NameOf(t: RoleType, role: Role): Option<string> {
    match (t, role)
    case (POWER_ROLE, POWER_SOURCE) => Some("source")
    case (POWER_ROLE, POWER_SINK) => Some("sink")
    case (DATA_ROLE, DATA_HOST) => Some("host")
    case (DATA_ROLE, DATA_DEVICE) => Some("device")
    case (MODE, MODE_DFP) => Some("host")
    case (MODE, MODE_UFP) => Some("device")
    case _ => None
  }

  function RoleFile(port: string, t: RoleType): string {
    "/sys/class/typec/" + port + if t == POWER_ROLE then "/power_role" else "/data_role"
  }

  /** A connected port reports the role whose name its file brackets, unless an audio or debug accessory
      takes the place of the mode. */
  lemma RoleIsReadBack(fs: Files, port: string, t: RoleType, role: Role, before: string, after: string)
    requires NameOf(t, role).Some? && Text.Free(before, '[') && Text.Free(before, ']')
    requires ReadFile(fs, RoleFile(port, t)) == Some(before + "[" + NameOf(t, role).value + "]" + after)
    ensures t != MODE ==> CurrentRole(fs, port, true, t) == Found(role)
    ensures t == MODE ==>
              CurrentRole(fs, port, true, t) ==
              match ReadFile(fs, "/sys/class/typec/" + port + "-partner/accessory_mode")
              case None => Failed(ERROR)
              case Some(accessory) =>
                Found(if accessory == "analog_audio" then MODE_AUDIO_ACCESSORY
                      else if accessory == "debug" then MODE_DEBUG_ACCESSORY else role)
  {
    hide ReadFile, ExtractRole;
    var name := NameOf(t, role).value;
    NamesDiffer(name);
    BracketedRole(before, name, after);
  }

  /** Exactly when a role cannot be reported: a file that it needs is missing, or names no role. */
  lemma RoleFails(fs: Files, port: string, connected: bool, t: RoleType)
    ensures var accessory := ReadFile(fs, "/sys/class/typec/" + port + "-partner/accessory_mode");
            var line := ReadFile(fs, RoleFile(port, t));
            var replaced := t == MODE && accessory in {Some("analog_audio"), Some("debug")};
            var result := CurrentRole(fs, port, connected, t);
            && (result == Failed(ERROR) <==>
                  connected && ((t == MODE && accessory == None) || (!replaced && line == None)))
            && (result == Failed(UNRECOGNIZED_ROLE) <==>
                  && connected && (t == MODE ==> accessory != None) && !replaced && line != None
                  && ExtractRole(line.value) !in {"source", "sink", "host", "device", "none"})
            && ((connected && (t == MODE ==> accessory != None) && !replaced
                 && line.Some? && ExtractRole(line.value) == "none") ==> result == Found(NoRole(t)))
  {
    hide ReadFile, ExtractRole;
    assert "none"[0] == 'n' && "source"[0] == 's' && "sink"[0] == 's' && "host"[0] == 'h' && "device"[0] == 'd';
  }

  /** readFile yields the first line, with or without a line end. */
  lemma FirstLine(fs: Files, path: string, line: string, rest: string)
    requires Text.Free(line, '\n')
    ensures path !in fs ==> ReadFile(fs, path) == None
    ensures path in fs && fs[path] == line + ['\n'] + rest ==> ReadFile(fs, path) == Some(line)
    ensures path in fs && fs[path] == line ==> ReadFile(fs, path) == Some(line)
  {
    BeforeIs(line, '\n', rest);
    BeforeFree(line, '\n');
  }

  lemma {:induction false} BeforeFree(s: string, d: char)
    requires Text.Free(s, d)
    ensures Text.Before(s, d) == s
  {
    if s != "" {
      assert s[0] in s;
      BeforeFree(s[1..], d);
    }
  }

  lemma NamesDiffer(name: string)
    requires name in {"source", "sink", "host", "device"}
    ensures Text.Free(name, ']')
    ensures name == "source" ==> RoleNamed(name, POWER_ROLE) == Some(POWER_SOURCE)
    ensures name == "sink" ==> RoleNamed(name, POWER_ROLE) == Some(POWER_SINK)
    ensures name == "host" ==> RoleNamed(name, DATA_ROLE) == Some(DATA_HOST) && RoleNamed(name, MODE) == Some(MODE_DFP)
    ensures name == "device" ==>
        RoleNamed(name, DATA_ROLE) == Some(DATA_DEVICE) && RoleNamed(name, MODE) == Some(MODE_UFP)
  {
    assert "source"[1] == 'o' && "sink"[1] == 'i' && "host"[0] == 'h'
      && "device"[0] == 'd' && "source"[0] == 's' && "sink"[0] == 's';
  }

  /** canSwitchRoleHelper */
  predicate CanSwitchRole(fs: Files, port: string) {
    ReadFile(fs, TYPEC + port + "-partner/supports_usb_power_delivery") == Some("yes")
  }

  // ---------- one status per port ----------

  datatype Modes = NO_MODES | DFP_ONLY | UFP_AND_DFP

  datatype PortStatus = PortStatus(
    portName: string,
    powerRole: Role,
    dataRole: Role,
    currentMode: Role,
    v10CurrentMode: Role,            // status.currentMode, of interface version 1.0
    canChangeMode: bool,
    canChangeDataRole: bool,
    canChangePowerRole: bool,
    supportedModes: Modes,
    v10SupportedModes: Modes)        // status.supportedModes

  /** A slot as resize leaves it. */
  const BLANK := PortStatus("", POWER_NONE, DATA_NONE, MODE_NONE, MODE_NONE, false, false, false, NO_MODES, NO_MODES)

  /** The status a port must get; None if one of its roles cannot be read. */
  function StatusOf(fs: Files, port: string, connected: bool, v10: bool): Option<PortStatus> {
    var power := CurrentRole(fs, port, connected, POWER_ROLE);
    var data := CurrentRole(fs, port, connected, DATA_ROLE);
    var mode := CurrentRole(fs, port, connected, MODE);
    if power.Found? && data.Found? && mode.Found? then
      var can := connected && CanSwitchRole(fs, port);
      var status := PortStatus(port, power.role, data.role, mode.role, mode.role, true, can, can, NO_MODES, NO_MODES);
      Some(if v10 then status.(v10SupportedModes := DFP_ONLY)
           else status.(supportedModes := UFP_AND_DFP, v10CurrentMode := MODE_NONE))
    else None
  }

  /** What a reported port can change and supports: its data and power roles exactly if it is connected to a
      partner with power delivery, always its mode; and the modes that each interface version is told of. */
  lemma ReportedAbilities(fs: Files, port: string, connected: bool, v10: bool)
    requires StatusOf(fs, port, connected, v10).Some?
    ensures var s := StatusOf(fs, port, connected, v10).value;
            var delivery := ReadFile(fs, "/sys/class/typec/" + port + "-partner/supports_usb_power_delivery");
            var powered := delivery == Some("yes");
            && s.canChangeMode && (s.canChangeDataRole <==> connected && powered)
            && (s.canChangePowerRole <==> connected && powered)
            && (v10 ==> s.v10SupportedModes == DFP_ONLY && s.v10CurrentMode == s.currentMode)
            && (!v10 ==>
                  s.supportedModes == UFP_AND_DFP && s.v10SupportedModes == NO_MODES && s.v10CurrentMode == MODE_NONE)
    ensures var s := StatusOf(fs, port, connected, v10).value;
            && s.portName == port
            && CurrentRole(fs, port, connected, POWER_ROLE) == Found(s.powerRole)
            && CurrentRole(fs, port, connected, DATA_ROLE) == Found(s.dataRole)
            && CurrentRole(fs, port, connected, MODE) == Found(s.currentMode)
  {
    hide CurrentRole, ReadFile;
  }

  /** A disconnected port is always reported: no roles, and neither data nor power role can change. */
  lemma DisconnectedPort(fs: Files, port: string, v10: bool)
    ensures var s := StatusOf(fs, port, false, v10);
            && s.Some? && s.value.powerRole == POWER_NONE && s.value.dataRole == DATA_NONE
            && s.value.currentMode == s.value.v10CurrentMode == MODE_NONE
            && !s.value.canChangeDataRole && !s.value.canChangePowerRole && s.value.canChangeMode
  {
  }

  /** Every slot holds the status of one port and every port outside `todo` has one slot. */
  ghost predicate Filled(slots: seq<PortStatus>, fs: Files, names: map<string, bool>, v10: bool, todo: set<string>) {
    && |slots| + |todo| == |names| && todo <= names.Keys
    && (forall i :: 0 <= i < |slots| ==>
          slots[i].portName in names && slots[i].portName !in todo
          && StatusOf(fs, slots[i].portName, names[slots[i].portName], v10) == Some(slots[i]))
    && (forall i, j :: 0 <= i < j < |slots| ==> slots[i].portName != slots[j].portName)
    && (forall port :: port in names && port !in todo ==> exists i :: 0 <= i < |slots| && slots[i].portName == port)
  }

  /** Every slot holds the status of one port and every port has one slot. */
  ghost predicate Reports(slots: seq<PortStatus>, fs: Files, names: map<string, bool>, v10: bool) {
    Filled(slots, fs, names, v10, {})
  }

  lemma FillOne(slots: seq<PortStatus>, slot: PortStatus,
    fs: Files, names: map<string, bool>, v10: bool, todo: set<string>)
    requires Filled(slots, fs, names, v10, todo) && slot.portName in todo
    requires StatusOf(fs, slot.portName, names[slot.portName], v10) == Some(slot)
    ensures Filled(slots + [slot], fs, names, v10, todo - {slot.portName})
  {
    hide StatusOf;
    var filled := slots + [slot];
    assert filled[|slots|] == slot;
    assert forall i :: 0 <= i < |slots| ==> filled[i] == slots[i];
  }

  lemma FilledCovers(slots: seq<PortStatus>, fs: Files, names: map<string, bool>, v10: bool)
    ensures Filled([], fs, names, v10, names.Keys)
    ensures Reports(slots, fs, names, v10) ==>
        forall port :: port in names ==> StatusOf(fs, port, names[port], v10).Some?
  {
    hide StatusOf;
  }

  /** getPortStatusHelper: the loop visits the map in an order that nothing here predicts. */
  method GetPortStatus(fs: Files, listing: Option<seq<DirEntry>>, v10: bool)
    returns (status: Status, slots: seq<PortStatus>, ghost names: map<string, bool>)
    ensures status == SUCCESS || status == ERROR
    ensures listing.None? ==> status == ERROR
    ensures listing.Some? ==> IsPortMap(names, listing.value)
    ensures listing.Some? ==>
              (status == SUCCESS <==> forall port :: port in names ==> StatusOf(fs, port, names[port], v10).Some?)
    ensures status == SUCCESS ==> Reports(slots, fs, names, v10)
  {
    hide IsPortMap, StatusOf, Filled;
    var found;
    status, found := GetTypeCPortNames(listing);
    names := found;
    slots := [];
    if status != SUCCESS { return; }
    slots := seq(|found|, _ => BLANK);
    var todo := found.Keys;
    var i := 0;
    FilledCovers(slots[..i], fs, found, v10);
    while todo != {}
      invariant todo <= found.Keys && i + |todo| == |found| == |slots|
      invariant Filled(slots[..i], fs, found, v10, todo)
      decreases todo
    {
      var port :| port in todo;
      ghost var before := slots[..i];
      var ok, slot := OneStatus(fs, port, found[port], v10);
      if !ok { return ERROR, slots, names; }
      FillOne(before, slot, fs, found, v10, todo);
      slots := slots[i := slot];
      todo := todo - {port};
      i := i + 1;
      assert slots[..i] == before + [slot];
    }
    FilledCovers(slots, fs, found, v10);
    assert slots[..i] == slots;
    status := SUCCESS;
  }

  /** The body of the loop: one slot is filled field by field. */
  method OneStatus(fs: Files, port: string, connected: bool, v10: bool) returns (ok: bool, slot: PortStatus)
    ensures ok <==> StatusOf(fs, port, connected, v10).Some?
    ensures ok ==> StatusOf(fs, port, connected, v10) == Some(slot) && slot.portName == port
  {
    hide CurrentRole, CanSwitchRole;
    ok, slot := false, BLANK.(portName := port);
    var currentRole := CurrentRole(fs, port, connected, POWER_ROLE);
    if currentRole.Failed? { return; }
    slot := slot.(powerRole := currentRole.role);
    currentRole := CurrentRole(fs, port, connected, DATA_ROLE);
    if currentRole.Failed? { return; }
    slot := slot.(dataRole := currentRole.role);
    currentRole := CurrentRole(fs, port, connected, MODE);
    if currentRole.Failed? { return; }
    slot := slot.(currentMode := currentRole.role);
    slot := slot.(v10CurrentMode := currentRole.role);
    slot := slot.(canChangeMode := true);
    slot := slot.(canChangeDataRole := if connected then CanSwitchRole(fs, port) else false);
    slot := slot.(canChangePowerRole := if connected then CanSwitchRole(fs, port) else false);
    if v10 {
      slot := slot.(v10SupportedModes := DFP_ONLY);
    } else {
      slot := slot.(supportedModes := UFP_AND_DFP);
      slot := slot.(v10SupportedModes := NO_MODES);
      slot := slot.(v10CurrentMode := MODE_NONE);
    }
    ok := true;
  }
}
