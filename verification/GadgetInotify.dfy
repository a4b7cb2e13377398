/** How the monitor handles one buffer of inotify records. */
module GadgetInotify {
  import opened GadgetProtocol

  type byte = n: int | 0 <= n < 256

  const BUFFER_SIZE := 512

  /** sizeof(struct inotify_event): wd, mask, cookie and len, four bytes each. */
  const HEADER := 16

  function Word(b0: byte, b1: byte, b2: byte, b3: byte): nat {
    (b0 as nat) + 0x100 * (b1 as nat) + 0x1_0000 * (b2 as nat) + 0x100_0000 * (b3 as nat)
  }

  /** The len field of the record at the front of `b`, little endian. */
  function NameLength(b: seq<byte>): nat
    requires |b| >= HEADER
  {
    Word(b[12], b[13], b[14], b[15])
  }

  /** read() on an inotify descriptor returns whole records. */
  predicate WholeRecords(b: seq<byte>) {
    b == [] || (|b| >= HEADER && HEADER + NameLength(b) <= |b| && WholeRecords(b[HEADER + NameLength(b)..]))
  }

  function RecordCount(b: seq<byte>): nat
    requires WholeRecords(b)
  {
    if b == [] then 0 else 1 + RecordCount(b[HEADER + NameLength(b)..])
  }

  lemma {:induction false} RecordsFit(b: seq<byte>)
    requires WholeRecords(b)
    ensures HEADER * RecordCount(b) <= |b|
  {
    if b != [] {
      RecordsFit(b[HEADER + NameLength(b)..]);
    }
  }

  /** The bound the transition system puts on one read. */
  lemma RecordsPerRead(b: seq<byte>)
    requires WholeRecords(b) && |b| <= BUFFER_SIZE
    ensures RecordCount(b) <= MAX_RECORDS
  {
    RecordsFit(b);
  }

  /** What the world answers while record number k is handled. */
  datatype Answers = Answers(readable: (nat, string) -> bool, writeOk: nat -> bool)

  predicate AllReadable(world: Answers, k: nat, endpoints: seq<string>) {
    forall j :: 0 <= j < |endpoints| ==> world.readable(k, endpoints[j])
  }

  datatype Outcome = Outcome(writeUdc: bool, pullups: nat, absents: nat)

  /** The effect of records 0..n in order. */
  function Drain(world: Answers, endpoints: seq<string>, n: nat, writeUdc: bool): Outcome {
    if n == 0 then Outcome(writeUdc, 0, 0)
    else
      var before := Drain(world, endpoints, n - 1, writeUdc);
      var present := AllReadable(world, n - 1, endpoints);
      var seen := before.(absents := before.absents + if present then 0 else 1);
      match DecideRecord(present, before.writeUdc)
      case Rearm => seen.(writeUdc := true)
      case TryPullup => if world.writeOk(n - 1) then seen.(writeUdc := false, pullups := before.pullups + 1) else seen
      case Ignore => seen
  }

  /** Within any stretch of records, pull-ups alternate with absences. */
  lemma {:induction false} DrainAlternates(world: Answers, endpoints: seq<string>, n: nat, writeUdc: bool)
    ensures var o := Drain(world, endpoints, n, writeUdc);
            o.pullups + (if o.writeUdc then 1 else 0) <= o.absents + if writeUdc then 1 else 0
  {
    if n > 0 {
      DrainAlternates(world, endpoints, n - 1, writeUdc);
    }
  }

  /** Record k finds every endpoint readable and the write of the UDC succeeds. */
  predicate Served(world: Answers, endpoints: seq<string>, k: nat) {
    AllReadable(world, k, endpoints) && world.writeOk(k)
  }

  /** Some endpoint was absent at record a, and no record in between was served since. */
  predicate AbsentSince(world: Answers, endpoints: seq<string>, a: nat, n: nat) {
    a < n && !AllReadable(world, a, endpoints) && forall k :: a < k < n ==> !Served(world, endpoints, k)
  }

  /** Whether record n, if served, is to pull the gadget up: an endpoint has been absent since it was last
      pulled up, or it was armed from the start and nothing has been served yet. */
  ghost predicate Due(world: Answers, endpoints: seq<string>, n: nat, armed: bool) {
    || (exists a: nat :: AbsentSince(world, endpoints, a, n))
    || (armed && forall k: nat :: k < n ==> !Served(world, endpoints, k))
  }

  ghost function DuePullups(world: Answers, endpoints: seq<string>, n: nat, armed: bool): nat {
    if n == 0 then 0
    else DuePullups(world, endpoints, n - 1, armed)
         + if Due(world, endpoints, n - 1, armed) && Served(world, endpoints, n - 1) then 1 else 0
  }

  lemma DueOneMore(world: Answers, endpoints: seq<string>, n: nat, armed: bool)
    ensures Due(world, endpoints, n + 1, armed) <==>
              !AllReadable(world, n, endpoints) || (Due(world, endpoints, n, armed) && !Served(world, endpoints, n))
  {
    if !AllReadable(world, n, endpoints) {
      assert AbsentSince(world, endpoints, n, n + 1);
    }
    var next := n + 1;
    if a: nat :| AbsentSince(world, endpoints, a, next) {
      assert a < n ==> AbsentSince(world, endpoints, a, n);
    }
    if a: nat :| AbsentSince(world, endpoints, a, n) {
      assert !Served(world, endpoints, n) ==> AbsentSince(world, endpoints, a, n + 1);
    }
  }

  /** Exactly when the gadget is pulled up: at every record that is served while a pull-up is due. */
  lemma {:induction false} DrainPullsUpWhenDue(world: Answers, endpoints: seq<string>, n: nat, armed: bool)
    ensures var o := Drain(world, endpoints, n, armed);
            && (o.writeUdc <==> Due(world, endpoints, n, armed))
            && o.pullups == DuePullups(world, endpoints, n, armed)
  {
    hide Due, AllReadable;
    if n == 0 {
      NothingHandled(world, endpoints, armed);
    } else {
      DrainPullsUpWhenDue(world, endpoints, n - 1, armed);
      DueOneMore(world, endpoints, n - 1, armed);
    }
  }

  lemma NothingHandled(world: Answers, endpoints: seq<string>, armed: bool)
    ensures Due(world, endpoints, 0, armed) <==> armed
  {
  }

  /** Record k finds everything readable after a record that did not, or as the first one while armed. */
  predicate Appears(world: Answers, endpoints: seq<string>, k: nat, armed: bool) {
    AllReadable(world, k, endpoints) && if k == 0 then armed else !AllReadable(world, k - 1, endpoints)
  }

  function Appearances(world: Answers, endpoints: seq<string>, n: nat, armed: bool): nat {
    if n == 0 then 0
    else Appearances(world, endpoints, n - 1, armed) + if Appears(world, endpoints, n - 1, armed) then 1 else 0
  }

  /** With working writes, the gadget is pulled up each time the endpoints appear, and the loop is armed
      exactly if they are absent now. */
  lemma {:induction false} DrainFollowsAppearances(world: Answers, endpoints: seq<string>, n: nat, armed: bool)
    requires forall k: nat :: k < n ==> world.writeOk(k)
    ensures var o := Drain(world, endpoints, n, armed);
            && (o.writeUdc <==> if n == 0 then armed else !AllReadable(world, n - 1, endpoints))
            && o.pullups == Appearances(world, endpoints, n, armed)
  {
    hide AllReadable;
    if n > 0 {
      DrainFollowsAppearances(world, endpoints, n - 1, armed);
    }
  }

  // ---------- the bytes of a record ----------

  /** The four bytes of a 32-bit word, little endian. */
  function Bytes(n: nat): seq<byte>
    requires n < 0x1_0000_0000
  {
    [n % 0x100, n / 0x100 % 0x100, n / 0x1_0000 % 0x100, n / 0x100_0000]
  }

  /** A record as the kernel lays it out: wd, mask and cookie, the length of the name, the name. */
  function Record(head: seq<byte>, name: seq<byte>): seq<byte>
    requires |name| < 0x1_0000_0000
  {
    head + Bytes(|name|) + name
  }

  /** Laying out one more record in front of whole records gives whole records, and one more of them. */
  lemma RecordInFront(head: seq<byte>, name: seq<byte>, rest: seq<byte>)
    requires |head| == 12 && |name| < 0x1_0000_0000 && WholeRecords(rest)
    ensures WholeRecords(Record(head, name) + rest)
    ensures RecordCount(Record(head, name) + rest) == 1 + RecordCount(rest)
  {
    var b := Record(head, name) + rest;
    WordOfBytes(|name|);
    var length := Bytes(|name|);
    assert b[12] == length[0] && b[13] == length[1] && b[14] == length[2] && b[15] == length[3];
    assert NameLength(b) == |name|;
    assert b[HEADER + |name|..] == rest;
  }

  lemma WordOfBytes(n: nat)
    requires n < 0x1_0000_0000
    ensures var b := Bytes(n); Word(b[0], b[1], b[2], b[3]) == n
  {
  }

  /** The endpoint check of one record. */
  method CheckEndpoints(endpoints: seq<string>, world: Answers, k: nat) returns (descriptorPresent: bool)
    ensures descriptorPresent == AllReadable(world, k, endpoints)
  {
    descriptorPresent := true;
    var j := 0;
    while j < |endpoints|
      invariant 0 <= j <= |endpoints| && descriptorPresent
      invariant forall i :: 0 <= i < j ==> world.readable(k, endpoints[i])
    {
      if !world.readable(k, endpoints[j]) {
        descriptorPresent := false;
        break;
      }
      j := j + 1;
    }
  }

  lemma NextRecord(data: seq<byte>, p: nat)
    requires p < |data| && WholeRecords(data[p..])
    ensures p + HEADER <= |data|
    ensures var next := p + HEADER + Word(data[p + 12], data[p + 13], data[p + 14], data[p + 15]);
            next <= |data| && WholeRecords(data[next..]) && RecordCount(data[p..]) == 1 + RecordCount(data[next..])
  {
    var rest := data[p..];
    assert rest[12] == data[p + 12] && rest[13] == data[p + 13] && rest[14] == data[p + 14] && rest[15] == data[p + 15];
    assert rest[HEADER + NameLength(rest)..] == data[p + HEADER + NameLength(rest)..];
  }

  /** The record loop of monitorFfs: `p` walks the buffer, each record re-checks the endpoints.
      `pullups` counts how often the gadget is reported pulled up. */
  method HandleInotify(buf: array<byte>, numRead: int, endpoints: seq<string>, world: Answers, armed: bool)
    returns (writeUdc: bool, pullups: nat)
    requires buf.Length == BUFFER_SIZE && numRead <= BUFFER_SIZE
    requires numRead > 0 ==> WholeRecords(buf[..numRead])
    ensures var outcome := Drain(world, endpoints, if numRead > 0 then RecordCount(buf[..numRead]) else 0, armed);
            writeUdc == outcome.writeUdc && pullups == outcome.pullups
  {
    hide WholeRecords, RecordCount;
    writeUdc, pullups := armed, 0;
    if numRead <= 0 { return; }                      // the loop body never runs
    ghost var data := buf[..numRead];
    assert data[0..] == data;
    var p, k := 0, 0;
    while p < numRead
      invariant 0 <= p <= numRead && WholeRecords(data[p..])
      invariant RecordCount(data) == k + RecordCount(data[p..])
      invariant var o := Drain(world, endpoints, k, armed); writeUdc == o.writeUdc && pullups == o.pullups
      decreases numRead - p
    {
      NextRecord(data, p);
      p := p + HEADER + Word(buf[p + 12], buf[p + 13], buf[p + 14], buf[p + 15]);
      var descriptorPresent := CheckEndpoints(endpoints, world, k);
      if !descriptorPresent && !writeUdc {
        writeUdc := true;
      } else if descriptorPresent && writeUdc && world.writeOk(k) {
        writeUdc := false;
        pullups := pullups + 1;
      }
      k := k + 1;
    }
    NoRecordsLeft(data[p..]);
  }

  lemma NoRecordsLeft(b: seq<byte>)
    requires b == []
    ensures WholeRecords(b) && RecordCount(b) == 0
  {
  }
}
