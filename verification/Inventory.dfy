/**
 * Inventory reports (inventory.ts): a report is taken into the register unless it is a
 * duplicate or older than what the register holds, and each section it carries replaces
 * the device's rows by an upsert loop and one delete.
 */
module Inventory {
  import opened Sequences

  const MAX_INVENTORY_CLOCK_SKEW_MS: int := 5 * 60000

  /** Dates lie within this many milliseconds of the epoch (ECMA-262, section 21.4.1.1). */
  const MAX_DATE: int := 8640000000000000

  type Fields = seq<Option<string>>

  datatype Disk = Disk(deviceId: string, fields: Fields)

  datatype App = App(name: string, publisher: string, fields: Fields)

  datatype Section<+T> = Section(data: T, raw: Option<string>)

  /** The sections a report carries with ok set. */
  datatype Payload = Payload(
    disks: Option<Section<seq<Disk>>>, hardware: Option<Section<Fields>>, software: Option<Section<seq<App>>>)

  /** A report as it arrives; collected is missing when it is not a number, payload when it
      is not a JSON object. */
  datatype Report = Report(id: string, collected: Option<int>, payload: Option<Payload>)

  datatype Item = Item(key: string, fields: Fields)

  /** A register row: what was reported, the section's raw text, and when. */
  datatype Row = Row(fields: Fields, raw: Option<string>, observedAt: int)

  /** One row per device and key. */
  type Table = map<string, map<string, Row>>

  datatype Device = Device(claimed: bool)

  datatype Register = Register(
    devices: map<string, Device>, lastReported: map<string, int>, reports: set<string>,
    disks: Table, hardware: map<string, Row>, software: Table)

  datatype Error = InvalidMetadata | InvalidJson | NotRegistered | NotClaimed

  // ---------------------------------------------------------------- keys

  const SEPARATOR: char := '\U{001F}'

  /** fold trims and lower-cases. */
  function SoftwareIdentityKey(fold: string -> string, name: string, publisher: string): string {
    fold(name) + [SEPARATOR] + fold(publisher)
  }

  lemma SplitOnce(x1: string, y1: string, x2: string, y2: string)
    requires SEPARATOR !in x1 && SEPARATOR !in x2 && x1 + [SEPARATOR] + y1 == x2 + [SEPARATOR] + y2
    ensures x1 == x2 && y1 == y2
  {
    var whole := x1 + [SEPARATOR] + y1;
    assert forall i :: 0 <= i < |x1| ==> whole[i] == x1[i] && x1[i] in x1;
    assert forall i :: 0 <= i < |x2| ==> whole[i] == x2[i] && x2[i] in x2;
    assert whole[|x1|] == SEPARATOR && whole[|x2|] == SEPARATOR;
    assert whole[..|x1|] == x1 && whole[..|x2|] == x2;
    assert whole[|x1| + 1..] == y1 && whole[|x2| + 1..] == y2;
  }

  /** Two applications share a key exactly when name and publisher fold alike, as long as
      no folded name holds the separator. */
  lemma KeysSeparate(fold: string -> string, n1: string, p1: string, n2: string, p2: string)
    requires SEPARATOR !in fold(n1) && SEPARATOR !in fold(n2)
    ensures SoftwareIdentityKey(fold, n1, p1) == SoftwareIdentityKey(fold, n2, p2)
            <==> fold(n1) == fold(n2) && fold(p1) == fold(p2)
  {
    if SoftwareIdentityKey(fold, n1, p1) == SoftwareIdentityKey(fold, n2, p2) {
      SplitOnce(fold(n1), fold(p1), fold(n2), fold(p2));
    }
  }

  function DiskItems(disks: seq<Disk>): seq<Item> {
    Map(Filter(disks, (d: Disk) => d.deviceId != ""), (d: Disk) => Item(d.deviceId, d.fields))
  }

  function AppItems(fold: string -> string, apps: seq<App>): seq<Item> {
    Map(Filter(apps, (a: App) => a.name != ""), (a: App) => Item(SoftwareIdentityKey(fold, a.name, a.publisher), a.fields))
  }

  // ---------------------------------------------------------------- reconciliation

  /** One entry per distinct key, the last of them winning. */
  function Latest(items: seq<Item>): map<string, Fields> {
    if items == [] then map[]
    else Latest(items[..|items| - 1])[items[|items| - 1].key := items[|items| - 1].fields]
  }

  predicate KeyIn(items: seq<Item>, key: string) { exists i :: 0 <= i < |items| && items[i].key == key }

  lemma {:induction false} LatestKeys(items: seq<Item>, key: string)
    ensures key in Latest(items) <==> KeyIn(items, key)
  {
    if items != [] {
      var init := items[..|items| - 1];
      LatestKeys(init, key);
      assert KeyIn(init, key) ==> KeyIn(items, key);
      assert items[|items| - 1].key == key ==> KeyIn(items, key);
    }
  }

  lemma {:induction false} LatestIsLast(items: seq<Item>, i: nat)
    requires i < |items| && forall j :: i < j < |items| ==> items[j].key != items[i].key
    ensures items[i].key in Latest(items) && Latest(items)[items[i].key] == items[i].fields
  {
    if i < |items| - 1 {
      LatestIsLast(items[..|items| - 1], i);
    }
  }

  function Rows(values: map<string, Fields>, raw: Option<string>, at: int): map<string, Row> {
    map k | k in values :: Row(values[k], raw, at)
  }

  function Of(table: Table, device: string): map<string, Row> {
    if device in table then table[device] else map[]
  }

  /** What a device's section becomes: exactly the report's rows. */
  function Replaced(table: Table, device: string, items: seq<Item>, raw: Option<string>, at: int): Table {
    table[device := Rows(Latest(items), raw, at)]
  }

  /** Upserts the items one by one. */
  method Upsert(rows: map<string, Row>, items: seq<Item>, raw: Option<string>, at: int) returns (after: map<string, Row>)
    ensures forall k :: k in after <==> k in rows || k in Latest(items)
    ensures forall k :: k in Latest(items) ==> after[k] == Row(Latest(items)[k], raw, at)
    ensures forall k :: k in rows && k !in Latest(items) ==> after[k] == rows[k]
  {
    after := rows;
    for i := 0 to |items|
      invariant forall k :: k in after <==> k in rows || k in Latest(items[..i])
      invariant forall k :: k in Latest(items[..i]) ==> after[k] == Row(Latest(items[..i])[k], raw, at)
      invariant forall k :: k in rows && k !in Latest(items[..i]) ==> after[k] == rows[k]
    {
      after := after[items[i].key := Row(items[i].fields, raw, at)];
      assert items[..i + 1][..i] == items[..i];
    }
    assert items[..|items|] == items;
  }

  /** The upserts, and the one delete of what the items do not name. */
  method Reconcile(table: Table, device: string, items: seq<Item>, raw: Option<string>, at: int) returns (after: Table)
    ensures after == Replaced(table, device, items, raw, at)
  {
    var rows := Upsert(Of(table, device), items, raw, at);
    forall k {:trigger KeyIn(items, k)}
      ensures k in Latest(items) <==> KeyIn(items, k)
    {
      LatestKeys(items, k);
    }
    var kept := map k | k in rows && KeyIn(items, k) :: rows[k];
    assert kept == Rows(Latest(items), raw, at);
    after := table[device := kept];
  }

  // ---------------------------------------------------------------- one report

  /** parseInventoryReport. */
  function Checked(r: Report, now: int): Option<Error> {
    if r.id == "" || r.collected.None? || !(-MAX_DATE <= r.collected.value <= MAX_DATE)
       || r.collected.value > now + MAX_INVENTORY_CLOCK_SKEW_MS
    then Some(InvalidMetadata)
    else if r.payload.None? then Some(InvalidJson) else None
  }

  /** The register after one report, or the error that rolled it back. */
  function Ingested(g: Register, fold: string -> string, device: string, r: Report, now: int): (Register, Option<Error>) {
    if Checked(r, now).Some? then (g, Checked(r, now))
    else if device !in g.devices then (g, Some(NotRegistered))
    else if !g.devices[device].claimed then (g, Some(NotClaimed))
    else (Stored(g, fold, device, r.id, r.collected.value, r.payload.value), None)
  }

  /** A valid report of a claimed device. */
  function Stored(g: Register, fold: string -> string, device: string, id: string, at: int, p: Payload): Register {
    var linked := if device in g.lastReported then g else g.(lastReported := g.lastReported[device := at]);
    var kept := linked.(reports := linked.reports + {id});
    if id in g.reports || linked.lastReported[device] > at then kept else Accepted(kept, fold, device, at, p)
  }

  function Accepted(g: Register, fold: string -> string, device: string, at: int, p: Payload): Register {
    g.(lastReported := g.lastReported[device := at],
       disks := if p.disks.Some? then Replaced(g.disks, device, DiskItems(p.disks.value.data), p.disks.value.raw, at) else g.disks,
       hardware := if p.hardware.Some?
                   then g.hardware[device := Row(p.hardware.value.data, p.hardware.value.raw, at)] else g.hardware,
       software := if p.software.Some?
                   then Replaced(g.software, device, AppItems(fold, p.software.value.data), p.software.value.raw, at)
                   else g.software)
  }

  /** The register's tables. */
  class Ingestion {
    const fold: string -> string
    var register: Register

    constructor (fold: string -> string, register: Register)
      ensures this.fold == fold && this.register == register
    {
      this.fold := fold;
      this.register := register;
    }

    /** One transaction: nothing changes when it fails. */
    method IngestInventoryReport(device: string, r: Report, now: int) returns (error: Option<Error>)
      modifies this
      ensures (register, error) == Ingested(old(register), fold, device, r, now)
      ensures error.Some? ==> register == old(register)
    {
      error := Checked(r, now);
      if error.Some? {
        return;
      }
      if device !in register.devices {
        return Some(NotRegistered);
      }
      if !register.devices[device].claimed {
        return Some(NotClaimed);
      }
      var at, payload := r.collected.value, r.payload.value;
      if device !in register.lastReported {
        register := register.(lastReported := register.lastReported[device := at]);
      }
      var inserted := r.id !in register.reports;
      register := register.(reports := register.reports + {r.id});
      if !inserted || register.lastReported[device] > at {
        return None;
      }
      register := register.(lastReported := register.lastReported[device := at]);
      if payload.disks.Some? {
        var disks := Reconcile(register.disks, device, DiskItems(payload.disks.value.data), payload.disks.value.raw, at);
        register := register.(disks := disks);
      }
      if payload.hardware.Some? {
        var row := Row(payload.hardware.value.data, payload.hardware.value.raw, at);
        register := register.(hardware := register.hardware[device := row]);
      }
      if payload.software.Some? {
        var apps := AppItems(fold, payload.software.value.data);
        var software := Reconcile(register.software, device, apps, payload.software.value.raw, at);
        register := register.(software := software);
      }
      return None;
    }
  }

  /** A report is refused exactly for these reasons, in this order, and then nothing has
      changed; one that is taken, and is new, is shown. */
  lemma TakenOrRefused(g: Register, fold: string -> string, device: string, r: Report, now: int)
    ensures var (h, error) := Ingested(g, fold, device, r, now);
      var malformed := r.id == "" || r.collected.None? || r.collected.value > now + 300000
                       || r.collected.value < -8640000000000000 || r.collected.value > 8640000000000000;
      && (error == Some(InvalidMetadata) <==> malformed)
      && (error == Some(InvalidJson) <==> !malformed && r.payload.None?)
      && (error == Some(NotRegistered) <==> !malformed && r.payload.Some? && device !in g.devices)
      && (error == Some(NotClaimed) <==>
            !malformed && r.payload.Some? && device in g.devices && !g.devices[device].claimed)
      && (error.Some? ==> h == g)
      && (error.None? && IsAccepted(g, device, r.id, r.collected.value) ==>
            Shows(h, fold, device, r.collected.value, r.payload.value))
  {
    if Ingested(g, fold, device, r, now).1.None? && IsAccepted(g, device, r.id, r.collected.value) {
      NewIsShown(g, fold, device, r.id, r.collected.value, r.payload.value);
    }
  }

  // ---------------------------------------------------------------- any order of arrival

  /** A valid report on its way, with its device. */
  datatype Arrival = Arrival(device: string, id: string, at: int, payload: Payload)

  function Run(g: Register, fold: string -> string, arrivals: seq<Arrival>): Register
    decreases |arrivals|
  {
    if arrivals == [] then g
    else Run(Stored(g, fold, arrivals[0].device, arrivals[0].id, arrivals[0].at, arrivals[0].payload), fold, arrivals[1..])
  }

  /** The time of the last report never goes back, for any device. */
  lemma {:induction false} TimeNeverDecreases(g: Register, fold: string -> string, arrivals: seq<Arrival>, device: string)
    requires device in g.lastReported
    ensures device in Run(g, fold, arrivals).lastReported
    ensures Run(g, fold, arrivals).lastReported[device] >= g.lastReported[device]
    decreases |arrivals|
  {
    if arrivals != [] {
      var a := arrivals[0];
      TimeNeverDecreases(Stored(g, fold, a.device, a.id, a.at, a.payload), fold, arrivals[1..], device);
    }
  }

  /** One device's rows in all three tables. */
  ghost predicate SameRows(g: Register, h: Register, device: string) {
    && Of(g.disks, device) == Of(h.disks, device) && Of(g.software, device) == Of(h.software, device)
    && (device in g.hardware <==> device in h.hardware)
    && (device in g.hardware ==> g.hardware[device] == h.hardware[device])
  }

  /** The rows of a report's disks: one for each id it names, from the last entry with it;
      an entry without an id has no row. */
  ghost predicate ShowsDisks(rows: map<string, Row>, disks: seq<Disk>, raw: Option<string>, at: int) {
    forall key :: ShowsDisk(rows, disks, raw, at, key)
  }

  ghost predicate ShowsDisk(rows: map<string, Row>, disks: seq<Disk>, raw: Option<string>, at: int, key: string) {
    && (key in rows <==> key != "" && exists i :: 0 <= i < |disks| && disks[i].deviceId == key)
    && (forall i :: 0 <= i < |disks| && disks[i].deviceId == key && key in rows
                    && (forall j :: i < j < |disks| ==> disks[j].deviceId != key) ==>
          rows[key] == Row(disks[i].fields, raw, at))
  }

  /** An application with a name has the key of its name and publisher. */
  predicate HasKey(fold: string -> string, a: App, key: string) {
    a.name != "" && key == SoftwareIdentityKey(fold, a.name, a.publisher)
  }

  /** The same of its applications. */
  ghost predicate ShowsApps(rows: map<string, Row>, fold: string -> string, apps: seq<App>, raw: Option<string>, at: int) {
    forall key :: ShowsApp(rows, fold, apps, raw, at, key)
  }

  ghost predicate ShowsApp(rows: map<string, Row>, fold: string -> string, apps: seq<App>, raw: Option<string>, at: int,
                           key: string)
  {
    && (key in rows <==> exists i :: 0 <= i < |apps| && HasKey(fold, apps[i], key))
    && (forall i :: 0 <= i < |apps| && HasKey(fold, apps[i], key)
                    && (forall j :: i < j < |apps| ==> !HasKey(fold, apps[j], key)) ==>
          key in rows && rows[key] == Row(apps[i].fields, raw, at))
  }

  lemma OneMoreDisk(disks: seq<Disk>, d: Disk)
    ensures Latest(DiskItems(disks + [d])) == if d.deviceId == "" then Latest(DiskItems(disks))
                                              else Latest(DiskItems(disks))[d.deviceId := d.fields]
  {
    FilterConcat(disks, [d], (x: Disk) => x.deviceId != "");
    if d.deviceId == "" {
      assert DiskItems(disks + [d]) == DiskItems(disks);
    } else {
      assert DiskItems(disks + [d]) == DiskItems(disks) + [Item(d.deviceId, d.fields)];
    }
  }

  lemma OneMoreRow(values: map<string, Fields>, key: string, fields: Fields, raw: Option<string>, at: int)
    ensures Rows(values[key := fields], raw, at) == Rows(values, raw, at)[key := Row(fields, raw, at)]
  {}

  /** One more entry takes over the row of its key, and no other. */
  lemma NextDisk(rows: map<string, Row>, disks: seq<Disk>, d: Disk, raw: Option<string>, at: int, key: string)
    requires ShowsDisk(rows, disks, raw, at, key)
    ensures ShowsDisk(if d.deviceId == "" then rows else rows[d.deviceId := Row(d.fields, raw, at)], disks + [d], raw, at, key)
  {
    var longer := disks + [d];
    assert longer[|disks|] == d && forall i :: 0 <= i < |disks| ==> longer[i] == disks[i];
    if d.deviceId == key {
      assert longer[|disks|].deviceId == key;
    }
  }

  lemma {:induction false} DiskIsShown(disks: seq<Disk>, raw: Option<string>, at: int, key: string)
    ensures ShowsDisk(Rows(Latest(DiskItems(disks)), raw, at), disks, raw, at, key)
  {
    if disks != [] {
      var init, last := disks[..|disks| - 1], disks[|disks| - 1];
      DiskIsShown(init, raw, at, key);
      OneMoreDisk(init, last);
      OneMoreRow(Latest(DiskItems(init)), last.deviceId, last.fields, raw, at);
      assert disks == init + [last];
      NextDisk(Rows(Latest(DiskItems(init)), raw, at), init, last, raw, at, key);
    }
  }

  lemma DisksAreShown(disks: seq<Disk>, raw: Option<string>, at: int)
    ensures ShowsDisks(Rows(Latest(DiskItems(disks)), raw, at), disks, raw, at)
  {
    forall key
      ensures ShowsDisk(Rows(Latest(DiskItems(disks)), raw, at), disks, raw, at, key)
    {
      DiskIsShown(disks, raw, at, key);
    }
  }

  lemma OneMoreApp(fold: string -> string, apps: seq<App>, a: App)
    ensures Latest(AppItems(fold, apps + [a]))
            == if a.name == "" then Latest(AppItems(fold, apps))
               else Latest(AppItems(fold, apps))[SoftwareIdentityKey(fold, a.name, a.publisher) := a.fields]
  {
    FilterConcat(apps, [a], (x: App) => x.name != "");
    if a.name == "" {
      assert AppItems(fold, apps + [a]) == AppItems(fold, apps);
    } else {
      assert AppItems(fold, apps + [a])
             == AppItems(fold, apps) + [Item(SoftwareIdentityKey(fold, a.name, a.publisher), a.fields)];
    }
  }

  lemma NextApp(rows: map<string, Row>, fold: string -> string, apps: seq<App>, a: App, raw: Option<string>, at: int,
                key: string)
    requires ShowsApp(rows, fold, apps, raw, at, key)
    ensures ShowsApp(if a.name == "" then rows
                     else rows[SoftwareIdentityKey(fold, a.name, a.publisher) := Row(a.fields, raw, at)],
                     fold, apps + [a], raw, at, key)
  {
    var longer := apps + [a];
    assert longer[|apps|] == a && forall i :: 0 <= i < |apps| ==> longer[i] == apps[i];
    if HasKey(fold, a, key) {
      assert HasKey(fold, longer[|apps|], key);
    }
  }

  lemma {:induction false} AppIsShown(fold: string -> string, apps: seq<App>, raw: Option<string>, at: int, key: string)
    ensures ShowsApp(Rows(Latest(AppItems(fold, apps)), raw, at), fold, apps, raw, at, key)
  {
    if apps != [] {
      var init, last := apps[..|apps| - 1], apps[|apps| - 1];
      AppIsShown(fold, init, raw, at, key);
      OneMoreApp(fold, init, last);
      OneMoreRow(Latest(AppItems(fold, init)), SoftwareIdentityKey(fold, last.name, last.publisher), last.fields, raw, at);
      assert apps == init + [last];
      NextApp(Rows(Latest(AppItems(fold, init)), raw, at), fold, init, last, raw, at, key);
    }
  }

  lemma AppsAreShown(fold: string -> string, apps: seq<App>, raw: Option<string>, at: int)
    ensures ShowsApps(Rows(Latest(AppItems(fold, apps)), raw, at), fold, apps, raw, at)
  {
    forall key
      ensures ShowsApp(Rows(Latest(AppItems(fold, apps)), raw, at), fold, apps, raw, at, key)
    {
      AppIsShown(fold, apps, raw, at, key);
    }
  }

  /** The device's rows are those of the report, in every section it carries. */
  ghost predicate Shows(g: Register, fold: string -> string, device: string, at: int, p: Payload) {
    && (p.disks.Some? ==> ShowsDisks(Of(g.disks, device), p.disks.value.data, p.disks.value.raw, at))
    && (p.software.Some? ==> ShowsApps(Of(g.software, device), fold, p.software.value.data, p.software.value.raw, at))
    && (p.hardware.Some? ==> device in g.hardware && g.hardware[device] == Row(p.hardware.value.data, p.hardware.value.raw, at))
  }

  predicate IsAccepted(g: Register, device: string, id: string, at: int) {
    id !in g.reports && (device in g.lastReported ==> g.lastReported[device] <= at)
  }

  lemma AcceptedShows(g: Register, fold: string -> string, device: string, at: int, p: Payload)
    ensures Shows(Accepted(g, fold, device, at, p), fold, device, at, p)
    ensures device in Accepted(g, fold, device, at, p).lastReported && Accepted(g, fold, device, at, p).lastReported[device] == at
  {
    if p.disks.Some? {
      DisksAreShown(p.disks.value.data, p.disks.value.raw, at);
    }
    if p.software.Some? {
      AppsAreShown(fold, p.software.value.data, p.software.value.raw, at);
    }
  }

  /** A report that is new and not older than the last one (an equal time counts as new)
      is shown exactly as it is; the sections it does not carry keep their rows. */
  lemma NewIsShown(g: Register, fold: string -> string, device: string, id: string, at: int, p: Payload)
    requires IsAccepted(g, device, id, at)
    ensures var h := Stored(g, fold, device, id, at, p);
      && Shows(h, fold, device, at, p) && device in h.lastReported && h.lastReported[device] == at && id in h.reports
      && h.devices == g.devices
      && (p.disks.None? ==> h.disks == g.disks) && (p.hardware.None? ==> h.hardware == g.hardware)
      && (p.software.None? ==> h.software == g.software)
  {
    var linked := if device in g.lastReported then g else g.(lastReported := g.lastReported[device := at]);
    AcceptedShows(linked.(reports := linked.reports + {id}), fold, device, at, p);
  }

  /** A duplicate or an older report changes no row of the register and no known time. */
  lemma OldIsIgnored(g: Register, fold: string -> string, device: string, id: string, at: int, p: Payload)
    requires !IsAccepted(g, device, id, at)
    ensures var h := Stored(g, fold, device, id, at, p);
      && h.disks == g.disks && h.hardware == g.hardware && h.software == g.software
      && h.reports == g.reports + {id} && (device in g.lastReported ==> h.lastReported == g.lastReported)
  {}

  ghost predicate SameTime(g: Register, h: Register, device: string) {
    && (device in g.lastReported <==> device in h.lastReported)
    && (device in g.lastReported ==> g.lastReported[device] == h.lastReported[device])
  }

  lemma AcceptedElsewhere(g: Register, fold: string -> string, device: string, at: int, p: Payload, other: string)
    requires other != device
    ensures SameRows(g, Accepted(g, fold, device, at, p), other) && SameTime(g, Accepted(g, fold, device, at, p), other)
  {
    var h := Accepted(g, fold, device, at, p);
    assert Of(h.disks, other) == Of(g.disks, other);
    assert Of(h.software, other) == Of(g.software, other);
  }

  /** No report touches another device. */
  lemma OthersUntouched(g: Register, fold: string -> string, device: string, id: string, at: int, p: Payload, other: string)
    requires other != device
    ensures var h := Stored(g, fold, device, id, at, p);
      SameRows(g, h, other) && SameTime(g, h, other) && h.reports == g.reports + {id}
  {
    var linked := if device in g.lastReported then g else g.(lastReported := g.lastReported[device := at]);
    var kept := linked.(reports := linked.reports + {id});
    assert SameTime(g, kept, other) && SameRows(g, kept, other);
    AcceptedElsewhere(kept, fold, device, at, p, other);
  }

  /** Later arrivals that are older, or duplicates, or another device's, leave the rows alone. */
  lemma {:induction false} OlderChangeNothing(g: Register, fold: string -> string, arrivals: seq<Arrival>, device: string)
    requires device in g.lastReported
    requires forall a :: a in arrivals && a.device == device ==> a.at < g.lastReported[device] || a.id in g.reports
    ensures SameRows(g, Run(g, fold, arrivals), device)
    ensures device in Run(g, fold, arrivals).lastReported
    ensures Run(g, fold, arrivals).lastReported[device] == g.lastReported[device]
    decreases |arrivals|
  {
    if arrivals != [] {
      var a := arrivals[0];
      assert a in arrivals && forall x :: x in arrivals[1..] ==> x in arrivals;
      if a.device == device {
        OldIsIgnored(g, fold, a.device, a.id, a.at, a.payload);
      } else {
        OthersUntouched(g, fold, a.device, a.id, a.at, a.payload, device);
      }
      OlderChangeNothing(Stored(g, fold, a.device, a.id, a.at, a.payload), fold, arrivals[1..], device);
    }
  }

  lemma {:induction false} RunConcat(g: Register, fold: string -> string, a: seq<Arrival>, b: seq<Arrival>)
    ensures Run(g, fold, a + b) == Run(Run(g, fold, a), fold, b)
    decreases |a|
  {
    if a == [] {
      assert a + b == b;
    } else {
      assert (a + b)[1..] == a[1..] + b;
      RunConcat(Stored(g, fold, a[0].device, a[0].id, a[0].at, a[0].payload), fold, a[1..], b);
    }
  }

  /** What a run of older reports can leave behind. */
  lemma {:induction false} OlderLeaveRoom(g: Register, fold: string -> string, arrivals: seq<Arrival>,
                                          device: string, id: string, at: int)
    requires IsAccepted(g, device, id, at)
    requires forall a :: a in arrivals ==> a.id != id && (a.device == device ==> a.at <= at)
    ensures IsAccepted(Run(g, fold, arrivals), device, id, at)
    decreases |arrivals|
  {
    if arrivals != [] {
      var a := arrivals[0];
      assert a in arrivals && forall x :: x in arrivals[1..] ==> x in arrivals;
      OlderLeaveRoom(Stored(g, fold, a.device, a.id, a.at, a.payload), fold, arrivals[1..], device, id, at);
    }
  }

  /** Convergence: wherever the newest report of a device arrives among its older ones, the
      register ends up showing it. */
  lemma NewestWins(g: Register, fold: string -> string, before: seq<Arrival>, newest: Arrival, after: seq<Arrival>)
    requires IsAccepted(g, newest.device, newest.id, newest.at)
    requires forall a :: a in before ==> a.id != newest.id
    requires forall a :: a in before && a.device == newest.device ==> a.at <= newest.at
    requires forall a :: a in after && a.device == newest.device ==> a.at < newest.at || a.id == newest.id
    ensures var h := Run(g, fold, before + [newest] + after);
      && Shows(h, fold, newest.device, newest.at, newest.payload)
      && newest.device in h.lastReported && h.lastReported[newest.device] == newest.at
  {
    RunConcat(g, fold, before + [newest], after);
    RunConcat(g, fold, before, [newest]);
    OlderLeaveRoom(g, fold, before, newest.device, newest.id, newest.at);
    var arrived := Run(g, fold, before);
    assert [newest][1..] == [];
    NewIsShown(arrived, fold, newest.device, newest.id, newest.at, newest.payload);
    OlderChangeNothing(Run(arrived, fold, [newest]), fold, after, newest.device);
  }
}
