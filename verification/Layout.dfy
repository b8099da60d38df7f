/** The per-task memory layout (PMSAv8): which devices and shared memories a task has mapped.

A task's layout table has six slots, each a pair of MPU region registers. The first two hold
the task's text and data for good. Devices and shared memories are given the first free slot.
The managers keep "mapped" flags beside the table, and the unmap gates panic when a flag is
set and the table does not agree.
*/
module Layout {

  const SLOTS := 6               // eight MPU regions, two of them the kernel's
  const FIRST_REGION := 2
  const NUM_REGIONS := 8

  // ---- Registers -----------------------------------------------------------------------------------------

  datatype Resource = Resource(rbar: bv32, rlar: bv32)

  const UNMAPPED := Resource(0, 0)
  const ATTR_DEVICE: bv32 := 0
  const ATTR_NORMAL_NOCACHE: bv32 := 1

  /** Access permission field: unprivileged access allowed, read-only or not. */
  function Permission(writable: bool): bv32 {
    if writable then 1 else 3
  }

  /** A region that is not shareable, and not executable. */
  function Forge(base: bv32, limit: bv32, writable: bool, attrs: bv32): Resource {
    Resource((base & 0xFFFFFFE0) | ((Permission(writable) << 1) & 0x6) | 1,
             (limit & 0xFFFFFFE0) | ((attrs << 1) & 0xE) | 1)
  }

  /** A read-only region that may be executed. */
  function ForgeText(base: bv32, limit: bv32): Resource {
    Resource((base & 0xFFFFFFE0) | ((Permission(false) << 1) & 0x6),
             (limit & 0xFFFFFFE0) | ((ATTR_NORMAL_NOCACHE << 1) & 0xE) | 1)
  }

  predicate IsFree(r: Resource) {
    r.rlar == 0 && r.rbar == 0
  }

  function BaseOf(r: Resource): bv32 {
    r.rbar & 0xFFFFFFE0
  }

  /** The read-only bit of the permission field is clear. */
  predicate Writable(r: Resource) {
    r.rbar & 0x4 == 0
  }

  predicate Aligned(base: bv32) {
    base & 0x1F == 0 && base != 0
  }

  lemma ForgeBase(base: bv32, limit: bv32, writable: bool, attrs: bv32)
    requires Aligned(base)
    ensures BaseOf(Forge(base, limit, writable, attrs)) == base
  {
  }

  lemma ForgeUsed(base: bv32, limit: bv32, writable: bool, attrs: bv32)
    ensures !IsFree(Forge(base, limit, writable, attrs))
  {
    assert ((base & 0xFFFFFFE0) | ((Permission(writable) << 1) & 0x6) | 1) & 1 == 1;
  }

  lemma TextForged(base: bv32, limit: bv32)
    requires Aligned(base)
    ensures var r := ForgeText(base, limit); BaseOf(r) == base && !IsFree(r) && !Writable(r)
  {
    assert ((limit & 0xFFFFFFE0) | ((ATTR_NORMAL_NOCACHE << 1) & 0xE) | 1) & 1 == 1;
  }

  lemma ForgeWritable(base: bv32, limit: bv32, writable: bool, attrs: bv32)
    ensures Writable(Forge(base, limit, writable, attrs)) <==> writable
  {
  }

  // ---- State -----------------------------------------------------------------------------------------------

  type Table = t: seq<Resource> | |t| == SLOTS witness seq(SLOTS, _ => UNMAPPED)

  datatype Device = Device(owner: nat, base: bv32, limit: bv32, capa: nat, mapped: bool)

  datatype Config = Config(mappable: bool, rw: bool, transferable: bool)
  datatype Party = Party(task: nat, config: Config, mapped: bool)
  datatype Shm = Shm(base: bv32, limit: bv32, mappable: bool, owner: Party, user: Party)

  datatype Result = Okay | Invalid | Denied | Busy | AlreadyMapped

  /** Handles of devices and shared memories are indices; an index past the end names nothing. */
  datatype Memory = Memory(tables: seq<Table>, devs: seq<Device>, shms: seq<Shm>, result: Result, panicked: bool)

  predicate Tasks(m: Memory) {
    && (forall d :: 0 <= d < |m.devs| ==> m.devs[d].owner < |m.tables|)
    && (forall h :: 0 <= h < |m.shms| ==> m.shms[h].owner.task < |m.tables| && m.shms[h].user.task < |m.tables|)
  }

  // ---- Boot ------------------------------------------------------------------------------------------------

  /** Where a task's text and data lie. */
  datatype Image = Image(text: bv32, textLimit: bv32, data: bv32, dataLimit: bv32)

  /** What the device tree says of a device and of a shared memory. */
  datatype DeviceMeta = DeviceMeta(owner: nat, base: bv32, limit: bv32, capa: nat)
  datatype ShmMeta = ShmMeta(owner: nat, base: bv32, limit: bv32, mappable: bool)

  const EMPTY_TABLE: Table := [UNMAPPED, UNMAPPED, UNMAPPED, UNMAPPED, UNMAPPED, UNMAPPED]

  /** Text, data and nothing else. */
  function BootTable(im: Image): Table {
    EMPTY_TABLE[0 := ForgeText(im.text, im.textLimit)]
               [1 := Forge(im.data, im.dataLimit, true, ATTR_NORMAL_NOCACHE)]
  }

  function BootDevice(d: DeviceMeta): Device {
    Device(d.owner, d.base, d.limit, d.capa, false)
  }

  /** Nobody may do anything with a shared memory yet, and its user is its owner. */
  function BootShm(s: ShmMeta): Shm {
    var p := Party(s.owner, Config(false, false, false), false);
    Shm(s.base, s.limit, s.mappable, p, p)
  }

  function BootMemory(images: seq<Image>, devices: seq<DeviceMeta>, memories: seq<ShmMeta>): (m: Memory) {
    Memory(seq(|images|, t requires 0 <= t < |images| => BootTable(images[t])),
           seq(|devices|, d requires 0 <= d < |devices| => BootDevice(devices[d])),
           seq(|memories|, h requires 0 <= h < |memories| => BootShm(memories[h])), Okay, false)
  }

  // ---- Table searches ----------------------------------------------------------------------------------------

  function FreeFrom(t: Table, i: nat): (k: nat)
    requires i <= SLOTS
    ensures i <= k <= SLOTS
    ensures k < SLOTS ==> IsFree(t[k])
    ensures forall j :: i <= j < k ==> !IsFree(t[j])
    decreases SLOTS - i
  {
    if i == SLOTS || IsFree(t[i]) then i else FreeFrom(t, i + 1)
  }

  function FindFrom(t: Table, base: bv32, i: nat): (k: nat)
    requires i <= SLOTS
    ensures i <= k <= SLOTS
    ensures k < SLOTS ==> BaseOf(t[k]) == base
    ensures forall j :: i <= j < k ==> BaseOf(t[j]) != base
    decreases SLOTS - i
  {
    if i == SLOTS || BaseOf(t[i]) == base then i else FindFrom(t, base, i + 1)
  }

  // ---- Gates ---------------------------------------------------------------------------------------------------

  function Answer(m: Memory, r: Result): (q: Memory)
    ensures q.tables == m.tables && q.devs == m.devs && q.shms == m.shms && q.panicked == m.panicked
  {
    m.(result := r)
  }

  function SetSlot(m: Memory, t: nat, i: nat, r: Resource): (q: Memory)
    requires t < |m.tables| && i < SLOTS
    ensures |q.tables| == |m.tables| && q.devs == m.devs && q.shms == m.shms
    ensures forall u :: 0 <= u < |m.tables| && u != t ==> q.tables[u] == m.tables[u]
    ensures q.tables[t] == m.tables[t][i := r]
  {
    var table: Table := m.tables[t][i := r];
    m.(tables := m.tables[t := table])
  }

  /** `allowed`: the security manager grants the device's capability to the caller. */
  function MapDevice(m: Memory, cur: nat, d: nat, allowed: bool): (q: Memory)
    requires Tasks(m)
  {
    if d >= |m.devs| then Answer(m, Invalid)
    else
      var dev := m.devs[d];
      if cur != dev.owner then Answer(m, Denied)
      else if dev.capa == 0 then m.(panicked := true)
      else if !allowed then Answer(m, Denied)
      else if dev.mapped then Answer(m, Invalid)
      else
        var i := FreeFrom(m.tables[cur], 0);
        if i == SLOTS then Answer(m, Busy)
        else
          var q := SetSlot(m, cur, i, Forge(dev.base, dev.limit, true, ATTR_DEVICE));
          Answer(q.(devs := m.devs[d := dev.(mapped := true)]), Okay)
  }

  function UnmapDevice(m: Memory, cur: nat, d: nat, allowed: bool): (q: Memory)
    requires Tasks(m)
  {
    if d >= |m.devs| then Answer(m, Invalid)
    else
      var dev := m.devs[d];
      if cur != dev.owner then Answer(m, Denied)
      else if dev.capa == 0 then m.(panicked := true)
      else if !allowed then Answer(m, Denied)
      else if !dev.mapped then Answer(m, Invalid)
      else
        var i := FindFrom(m.tables[cur], dev.base, 0);
        if i == SLOTS then m.(panicked := true)
        else Answer(SetSlot(m, cur, i, UNMAPPED).(devs := m.devs[d := dev.(mapped := false)]), Okay)
  }

  datatype Role = Owner | User | Stranger

  function RoleOf(s: Shm, t: nat): Role {
    if s.owner.task == t then Owner else if s.user.task == t then User else Stranger
  }

  function PartyOf(s: Shm, r: Role): Party {
    if r == Owner then s.owner else s.user
  }

  function SetMapped(s: Shm, r: Role, mapped: bool): Shm {
    if r == Owner then s.(owner := s.owner.(mapped := mapped)) else s.(user := s.user.(mapped := mapped))
  }

  function MapShm(m: Memory, cur: nat, h: nat): (q: Memory)
    requires Tasks(m) && cur < |m.tables|
  {
    if h >= |m.shms| then Answer(m, Invalid)
    else
      var s := m.shms[h];
      var role := RoleOf(s, cur);
      var p := PartyOf(s, role);
      if role == Stranger then Answer(m, Invalid)
      else if !s.mappable || !p.config.mappable then Answer(m, Denied)
      else if p.mapped then Answer(m, AlreadyMapped)
      else
        var i := FreeFrom(m.tables[cur], 0);
        if i == SLOTS then Answer(m, Busy)
        else
          var q := SetSlot(m, cur, i, Forge(s.base, s.limit, p.config.rw, ATTR_NORMAL_NOCACHE));
          Answer(q.(shms := m.shms[h := SetMapped(s, role, true)]), Okay)
  }

  function UnmapShm(m: Memory, cur: nat, h: nat): (q: Memory)
    requires Tasks(m) && cur < |m.tables|
  {
    if h >= |m.shms| then Answer(m, Invalid)
    else
      var s := m.shms[h];
      var role := RoleOf(s, cur);
      if role == Stranger then Answer(m, Invalid)
      else if !PartyOf(s, role).mapped then Answer(m, Invalid)
      else
        var i := FindFrom(m.tables[cur], s.base, 0);
        if i == SLOTS then m.(panicked := true)
        else Answer(SetSlot(m, cur, i, UNMAPPED).(shms := m.shms[h := SetMapped(s, role, false)]), Okay)
  }

  /** A request that passes every check. */
  predicate Grants(m: Memory, cur: nat, h: nat, target: nat)
    requires Tasks(m)
  {
    h < |m.shms| && target < |m.tables| && RoleOf(m.shms[h], cur) == Owner && !m.shms[h].owner.mapped
  }

  function SetCreds(m: Memory, cur: nat, h: nat, target: nat, config: Config): (q: Memory)
    requires Tasks(m)
  {
    if h >= |m.shms| || target >= |m.tables| || RoleOf(m.shms[h], cur) == Stranger then Answer(m, Invalid)
    else if RoleOf(m.shms[h], cur) == User then Answer(m, Denied)
    else if m.shms[h].owner.mapped then Answer(m, Busy)
    else
      var s := m.shms[h];
      var next :=
        if target == cur then s.(owner := s.owner.(config := config))
        else s.(user := s.user.(task := target, config := config));
      Answer(m.(shms := m.shms[h := next]), Okay)
  }

  datatype Request =
    | DoMapDevice(d: nat, allowed: bool)
    | DoUnmapDevice(d: nat, allowed: bool)
    | DoMapShm(h: nat)
    | DoUnmapShm(h: nat)
    | DoSetCreds(h: nat, target: nat, config: Config)

  /** One gate called by task `cur`; nothing happens after a panic. */
  function Serve(m: Memory, cur: nat, r: Request): (q: Memory)
    requires Tasks(m) && cur < |m.tables|
  {
    if m.panicked then m
    else match r
      case DoMapDevice(d, allowed) => MapDevice(m, cur, d, allowed)
      case DoUnmapDevice(d, allowed) => UnmapDevice(m, cur, d, allowed)
      case DoMapShm(h) => MapShm(m, cur, h)
      case DoUnmapShm(h) => UnmapShm(m, cur, h)
      case DoSetCreds(h, target, config) => SetCreds(m, cur, h, target, config)
  }
}
