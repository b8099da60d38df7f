/** The memory gates as they run: layout tables and flags updated in place. */
module MemoryMachine {
  import opened Layout
  import opened LayoutProofs

  /** First free slot of a layout table, if there is one. */
  method GetFreeId(t: Table) returns (found: bool, id: nat)
    ensures found <==> exists i :: 0 <= i < SLOTS && IsFree(t[i])
    ensures found ==> id < SLOTS && IsFree(t[id]) && forall j :: 0 <= j < id ==> !IsFree(t[j])
    ensures FreeFrom(t, 0) == if found then id else SLOTS
  {
    found, id := false, 0;
    for i := 0 to SLOTS
      invariant !found && forall j :: 0 <= j < i ==> !IsFree(t[j])
    {
      if IsFree(t[i]) {
        return true, i;
      }
    }
  }

  /** Region number of the first slot that holds an address: its index, plus the kernel's regions. */
  method GetIdFromAddress(t: Table, addr: bv32) returns (found: bool, id: nat)
    ensures found <==> Occurs(t, addr)
    ensures found ==> FIRST_REGION <= id < NUM_REGIONS && BaseOf(t[id - FIRST_REGION]) == addr
    ensures FindFrom(t, addr, 0) == if found then id - FIRST_REGION else SLOTS
  {
    found, id := false, 0;
    for i := 0 to SLOTS
      invariant !found && forall j :: 0 <= j < i ==> BaseOf(t[j]) != addr
    {
      if BaseOf(t[i]) == addr {
        return true, i + FIRST_REGION;
      }
    }
  }

  class MemoryManager {
    var tables: seq<Table>
    var devs: seq<Device>
    var shms: seq<Shm>
    var result: Result
    var panicked: bool

    ghost function M(): Memory
      reads this
    {
      Memory(tables, devs, shms, result, panicked)
    }

    /** Boot: layouts of the tasks, then devices and shared memories, none of them mapped. */
    constructor (images: seq<Image>, devices: seq<DeviceMeta>, memories: seq<ShmMeta>)
      ensures M() == BootMemory(images, devices, memories)
    {
      tables, devs, shms, result, panicked := [], [], [], Okay, false;
      new;
      hide ForgeText, Forge;
      ghost var m := BootMemory(images, devices, memories);
      for t := 0 to |images|
        invariant M() == Memory(m.tables[..t], [], [], Okay, false)
      {
        InitTask(images[t]);
      }
      for d := 0 to |devices|
        invariant M() == Memory(m.tables, m.devs[..d], [], Okay, false)
      {
        devs := devs + [BootDevice(devices[d])];
      }
      for h := 0 to |memories|
        invariant M() == Memory(m.tables, m.devs, m.shms[..h], Okay, false)
      {
        shms := shms + [BootShm(memories[h])];
      }
    }

    /** A new task: an empty table, then its text and its data. */
    method InitTask(im: Image)
      modifies `tables
      ensures M() == old(M()).(tables := old(tables) + [BootTable(im)])
    {
      tables := tables + [EMPTY_TABLE];
      var _ := AddResource(|tables| - 1, 0, ForgeText(im.text, im.textLimit));
      var _ := AddResource(|tables| - 1, 1, Forge(im.data, im.dataLimit, true, ATTR_NORMAL_NOCACHE));
    }

    /** Refused for an unknown task and for a slot past the end. */
    method AddResource(t: nat, id: nat, r: Resource) returns (ok: bool)
      modifies `tables
      ensures ok <==> t < |old(tables)| && id < SLOTS
      ensures M() == if ok then SetSlot(old(M()), t, id, r) else old(M())
    {
      if t >= |tables| || id >= SLOTS {
        return false;
      }
      var table: Table := tables[t][id := r];
      tables := tables[t := table];
      ok := true;
    }

    /** Refused for an unknown task. */
    method RemoveResource(t: nat, id: nat) returns (ok: bool)
      requires id < SLOTS
      modifies `tables
      ensures ok <==> t < |old(tables)|
      ensures M() == if ok then SetSlot(old(M()), t, id, UNMAPPED) else old(M())
    {
      if t >= |tables| {
        return false;
      }
      var table: Table := tables[t][id := UNMAPPED];
      tables := tables[t := table];
      ok := true;
    }

    method GateMapDevice(cur: nat, d: nat, allowed: bool)
      requires Tasks(M()) && !panicked
      modifies this
      ensures M() == MapDevice(old(M()), cur, d, allowed)
    {
      hide Forge, IsFree;
      if d >= |devs| {
        result := Invalid;
        return;
      }
      var dev := devs[d];
      if cur != dev.owner {
        result := Denied;
        return;
      }
      if dev.capa == 0 {
        panicked := true;
        return;
      }
      if !allowed {
        result := Denied;
        return;
      }
      if dev.mapped {
        result := Invalid;
        return;
      }
      var free, id := GetFreeId(tables[cur]);
      if !free {
        result := Busy;
        return;
      }
      var _ := AddResource(cur, id, Forge(dev.base, dev.limit, true, ATTR_DEVICE));
      devs := devs[d := dev.(mapped := true)];
      result := Okay;
    }

    method GateUnmapDevice(cur: nat, d: nat, allowed: bool)
      requires Tasks(M()) && !panicked
      modifies this
      ensures M() == UnmapDevice(old(M()), cur, d, allowed)
    {
      hide BaseOf;
      if d >= |devs| {
        result := Invalid;
        return;
      }
      var dev := devs[d];
      if cur != dev.owner {
        result := Denied;
        return;
      }
      if dev.capa == 0 {
        panicked := true;
        return;
      }
      if !allowed {
        result := Denied;
        return;
      }
      if !dev.mapped {
        result := Invalid;
        return;
      }
      var found, region := GetIdFromAddress(tables[cur], dev.base);
      if !found {
        panicked := true;
        return;
      }
      var _ := RemoveResource(cur, region - FIRST_REGION);
      devs := devs[d := dev.(mapped := false)];
      result := Okay;
    }

    method GateMapShm(cur: nat, h: nat)
      requires Tasks(M()) && !panicked && cur < |tables|
      modifies this
      ensures M() == MapShm(old(M()), cur, h)
    {
      hide Forge, IsFree;
      if h >= |shms| {
        result := Invalid;
        return;
      }
      var s := shms[h];
      var role := RoleOf(s, cur);
      if role == Stranger {
        result := Invalid;
        return;
      }
      var p := PartyOf(s, role);
      if !s.mappable || !p.config.mappable {
        result := Denied;
        return;
      }
      if p.mapped {
        result := AlreadyMapped;
        return;
      }
      var free, id := GetFreeId(tables[cur]);
      if !free {
        result := Busy;
        return;
      }
      var _ := AddResource(cur, id, Forge(s.base, s.limit, p.config.rw, ATTR_NORMAL_NOCACHE));
      shms := shms[h := SetMapped(s, role, true)];
      result := Okay;
    }

    method GateUnmapShm(cur: nat, h: nat)
      requires Tasks(M()) && !panicked && cur < |tables|
      modifies this
      ensures M() == UnmapShm(old(M()), cur, h)
    {
      hide BaseOf;
      if h >= |shms| {
        result := Invalid;
        return;
      }
      var s := shms[h];
      var role := RoleOf(s, cur);
      if role == Stranger || !PartyOf(s, role).mapped {
        result := Invalid;
        return;
      }
      var found, region := GetIdFromAddress(tables[cur], s.base);
      if !found {
        panicked := true;
        return;
      }
      var _ := RemoveResource(cur, region - FIRST_REGION);
      shms := shms[h := SetMapped(s, role, false)];
      result := Okay;
    }

    method GateShmSetCreds(cur: nat, h: nat, target: nat, config: Config)
      requires Tasks(M()) && !panicked
      modifies this
      ensures M() == SetCreds(old(M()), cur, h, target, config)
    {
      if h >= |shms| || target >= |tables| || RoleOf(shms[h], cur) == Stranger {
        result := Invalid;
        return;
      }
      var s := shms[h];
      if RoleOf(s, cur) == User {
        result := Denied;
        return;
      }
      if s.owner.mapped {
        result := Busy;
        return;
      }
      if target == cur {
        shms := shms[h := s.(owner := s.owner.(config := config))];
      } else {
        shms := shms[h := s.(user := s.user.(task := target, config := config))];
      }
      result := Okay;
    }

    /** One memory gate: device and owner flags stay in agreement with the tables, and nothing
        panics, exactly when the caller is not a stranded user. */
    method Handle(cur: nat, r: Request)
      requires Tasks(M()) && !panicked && cur < |tables|
      modifies this
      ensures M() == Serve(old(M()), cur, r)
      ensures old(MemInv(M())) ==> (MemInv(M()) <==> !(r.DoUnmapShm? && old(Stranded(M(), cur, r.h))))
    {
      ghost var m := M();
      hide MemInv, MapDevice, UnmapDevice, MapShm, UnmapShm, SetCreds, Stranded;
      match r {
        case DoMapDevice(d, allowed) => GateMapDevice(cur, d, allowed);
        case DoUnmapDevice(d, allowed) => GateUnmapDevice(cur, d, allowed);
        case DoMapShm(h) => GateMapShm(cur, h);
        case DoUnmapShm(h) => GateUnmapShm(cur, h);
        case DoSetCreds(h, target, config) => GateShmSetCreds(cur, h, target, config);
      }
      if MemInv(m) {
        ServeExact(m, cur, r);
      }
    }
  }
}
